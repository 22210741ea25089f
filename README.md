# Ory CLI extension for Visual Studio Code — a verified model

The extension drives the `ory` command-line tool from editor commands and tree views:

- it collects answers from quick picks, input boxes and file dialogs;
- it turns those answers into an `ory` argument vector;
- it reacts to the spawned process's stdout, stderr and close events with notifications, webview panels, re-authentication offers and kills;
- it keeps three tree views up to date: running tunnels, identities and relationships.

This project models that behaviour in Dafny. Each source file has its own module:

- `Helper`: the shared spawn wrapper, the format and file-type picks, and the common input prompt.
- `OryTunnel`, `Introspect`, `OryPatch`, `OryImport`: the commands that collect flags into a dictionary and build `--key=value` arguments from it.
- `OryCreate`, `OryGet`, `OryUpdate`, `OryDelete`: the commands that run one subcommand with per-resource output handling.
- `OryAuth`: sign-in and registration through a pseudo-terminal, and sign-out.
- `ListTunnelProcess`, `ListIdentities`, `ListRelationships`: the tree data providers. Each is a class whose fields the methods update.
- `JsText`, `JsDict`, `JwkChoices`, `Wrappers`: shared building blocks.
  - `JsText` holds the JavaScript string built-ins the code relies on.
  - `JsDict` is a string-keyed JavaScript object with insertion-ordered keys, kept as an association list.
  - `JwkChoices` holds the JWK algorithm and key-use choices.

How the model represents the editor and the CLI:

- **Prompts:** every prompt is an `Option` input; `None` is the user dismissing it.
- **Spawned commands:** a spawned command is the argument vector it is given.
- **Process output:** what the process prints is a sequence of `ProcessEvent`s.
- **Editor reactions:** every notification, panel, re-authentication or retry offer, or kill is an `Effect`, in the order the handlers produce them. An error box whose button runs the sign-in command is an offer (`OfferReauthentication` for the "Re-authenticate" button, `OfferRetry` for "Retry"), not a plain `ShowError`.

Loops that fill dictionaries or argument lists are methods with loop invariants. Each is proved equal to a fold over the answers, and the properties are proved as lemmas about that fold.

A few behaviours the model records as the code has them:

- **The update command's `yaml/yml` branch never runs.** `fileType` never returns `yaml/yml`, so a YAML upload in the update command gets the text prompt with the `base64://<json>` placeholder instead of the file dialog. The same holds for a YAML file in the patch command's `file` option.
- **A dismissed input prompt:**
  - The get command shows the error and still runs `ory get <kind> --format <format>` with no ids.
  - The delete command stops with a logged line.
- **A JWK created with an empty set id:** the success test ("output contains the set id") holds for every output.
- **The JWK create command's stderr handler never kills a process.** It calls `kill` on the project branch's process, which is not initialised in that branch. The call throws before any kill happens, so the model has no kill there.
- **Registration errors:** the message is the second line of the output. Output with no second line throws, so nothing is shown.
- **The tunnel command's record id** is the process id when there is one. Otherwise it is a random ten-character id from the 62-letter alphabet, built from an explicit sequence of random draws.

## Model

| member | source | states |
|---|---|---|
| Helper.SpawnCommonErrAndClose | src/helper/index.ts:5-52 | the resolved value is the trimmed stdout collected before the first close event (none when there is no close), and the effects are those of every stdout/stderr event in order |
| Helper.ResolvedAtFirstClose | src/helper/index.ts:46-50 | the promise resolves at the first close event to the trimmed concatenation of the stdout chunks before it |
| Helper.NoCloseNoResolution | src/helper/index.ts:46-50 | without a close event the promise never resolves |
| Helper.StdoutOfChunks | src/helper/index.ts:19 | the collected output is exactly the concatenation of the stdout chunks |
| Helper.NoPanelWithoutFormat | src/helper/index.ts:15-18 | when the format is empty or absent, no webview panel is ever opened |
| Helper.StderrClassification | src/helper/index.ts:22-44 | each stderr chunk shows exactly one error: the no-project message if the chunk names the missing project, the generic message otherwise; a kill and a re-authentication offer happen iff the chunk reports an expired session |
| Helper.ReactionsMember | src/helper/index.ts:12-44 | an effect occurs in the reaction to an event sequence iff it occurs in the reaction to one of its events |
| Helper.FormatChoice | src/helper/index.ts:54-68 | a picked format is returned by its label, a dismissed pick gives json, and the panel extension is yaml only for the yaml pick (json-pretty counts as json) |
| Helper.FileType | src/helper/index.ts:118-136 | a dismissed pick gives noUploadTypeSelected and only then; json, yaml, url and base64 correspond to their picks; the label yaml/yml is never returned |
| Helper.CommandInput | src/helper/index.ts:82-116 | the empty type yields one empty string; a dismissed prompt is the Invalid input error; a single input is returned as is; a list input is its split at commas after the first separator is normalised (`SplitList`), one piece per comma plus one |
| Helper.SplitListCount | src/helper/index.ts:107-110 | the first ", s…" separator is normalised to a comma without adding or removing commas, so the split has one piece per comma plus one |
| Helper.SplitListPieces | src/helper/index.ts:107-110 | the list input splits at every comma, with the first comma-whitespace-s-run separator removed as a unit |
| Helper.CommaSpaceFrom | src/helper/index.ts:109 | finds the first comma followed by whitespace from a position, or reports that there is none |
| Helper.RunOfS | src/helper/index.ts:109 | measures the maximal run of letters s the separator pattern swallows |
| ListTunnelProcess.StatusName | src/tree/listTunnelProcess.ts:8 | a status is one of running, paused or stopped |
| ListTunnelProcess.TreeItemFor | src/tree/listTunnelProcess.ts:56-63 | the tree item is labelled with the process name and its tooltip gives the process id and application name on two lines |
| ListTunnelProcess.FindIndexById | src/tree/listTunnelProcess.ts:41 | findIndex returns the first item with the id, or -1 iff none has it |
| ListTunnelProcess.RemoveFirstCounts | src/tree/listTunnelProcess.ts:40-47 | removing an absent id changes nothing; otherwise exactly one item with that id goes and every other id keeps its count |
| ListTunnelProcess.RemoveUndoesAdd | src/tree/listTunnelProcess.ts:35-47 | adding a process with a fresh id and then removing that id restores the list |
| ListTunnelProcess.ListRunningProcessProvider.constructor | src/tree/listTunnelProcess.ts:15 | the provider starts with no items and no processes killed |
| ListTunnelProcess.ListRunningProcessProvider.GetChildren | src/tree/listTunnelProcess.ts:27-32 | the root has the top-level items as children, an item has none |
| ListTunnelProcess.ListRunningProcessProvider.Add | src/tree/listTunnelProcess.ts:35-38 | the process's tree item is appended and nothing is killed |
| ListTunnelProcess.ListRunningProcessProvider.Remove | src/tree/listTunnelProcess.ts:40-47 | the first item with the id is removed and its process killed; an absent id changes nothing |
| ListRelationships.Permissions | src/tree/listRelationships.ts:65-87 | each relation tuple is flattened, in order, to its subject, relation and namespace:object strings |
| ListRelationships.SubjectSetKeyInjective | src/tree/listRelationships.ts:69-80 | two subject sets give the same subject string iff namespace, object and shown relation agree (when namespaces hold no colon and objects no hash) |
| ListRelationships.ObjectKeyInjective | src/tree/listRelationships.ts:81-85 | two tuples give the same object string iff namespace and object agree (when namespaces hold no colon) |
| ListRelationships.GroupObjects | src/tree/listRelationships.ts:92-106 | after grouping, a subject's relation holds exactly the objects of the matching tuples, in input order |
| ListRelationships.GroupSubjectOrder | src/tree/listRelationships.ts:92-114 | the grouping's subjects are the distinct subjects in order of first appearance |
| ListRelationships.GroupRelationOrder | src/tree/listRelationships.ts:92-106 | a subject's relations are its distinct relations in order of first appearance |
| ListRelationships.GroupTotal | src/tree/listRelationships.ts:92-106 | the grouping holds exactly one object entry per tuple, so nothing is lost or duplicated |
| ListRelationships.DedupMembership | src/tree/listRelationships.ts:92-106 | first-seen deduplication keeps exactly the values present |
| ListRelationships.FileRelationship | src/tree/listRelationships.ts:93-105 | one loop step files the object under its subject and relation, creating either when new |
| ListRelationships.BuildRelationshipsJSON | src/tree/listRelationships.ts:65-115 | the loop's result is the grouping of all flattened tuples |
| ListRelationships.GroupPermissions | src/tree/listRelationships.ts:89-105 | the nested-map loop leaves the grouping of the permissions in input order |
| ListRelationships.RelationNodes | src/tree/listRelationships.ts:134-158 | there is one relation node per relation of the subject |
| ListRelationships.ExpansionMatchesTuples | src/tree/listRelationships.ts:134-158 | expanding a grouped subject gives, per distinct relation in first-seen order, a node whose leaves are the matching tuples' objects (none for the empty relation) |
| ListRelationships.RelationshipsTreeItem.constructor | src/tree/listRelationships.ts:120-132 | the subject node keeps its subject and relations, its tooltip falls back to the subject when empty, and it has no children yet |
| ListRelationships.RelationshipsTreeItem.GetChildren | src/tree/listRelationships.ts:134-158 | the relation nodes are appended to the children, which are never cleared, and all children are returned |
| ListRelationships.ExpandTwice | src/tree/listRelationships.ts:134-158 | expanding the same subject node twice returns every relation node twice |
| ListRelationships.ListRelationshipsProvider.constructor | src/tree/listRelationships.ts:19-23 | the grouping starts empty |
| ListRelationships.ListRelationshipsProvider.Init | src/tree/listRelationships.ts:25-34 | a fetched list replaces the grouping with the grouping of its tuples; a failed fetch leaves it unchanged |
| ListRelationships.ListRelationshipsProvider.Refresh | src/tree/listRelationships.ts:59-63 | refreshing empties the grouping before the re-fetch |
| ListRelationships.ListRelationshipsProvider.GetRootChildren | src/tree/listRelationships.ts:40-57 | the root has one fresh subject node per subject, in order, each holding that subject's relations and the subject as tooltip |
| ListIdentities.ToIdentity | src/tree/listIdentities.ts:37-47 | the identity keeps id, state, schema id and schema URL, and its traits are the value of the first trait key (undefined when there are none) |
| ListIdentities.TooltipLines | src/tree/listIdentities.ts:85-92 | the tooltip is the five lines ID, State, Traits, Schema ID and Schema URL |
| ListIdentities.Items | src/tree/listIdentities.ts:37-47 | there is one tree item per fetched identity, in order |
| ListIdentities.FindIndexById | src/tree/listIdentities.ts:74 | findIndex returns the first item with the id, or -1 iff none has it |
| ListIdentities.DeleteRemovesAtMostOne | src/tree/listIdentities.ts:71-80 | when the delete output does not mention the id nothing changes; otherwise exactly one item with that id, if any, is removed and every other id keeps its count |
| ListIdentities.ListIdentitiesProvider.constructor | src/tree/listIdentities.ts:21-27 | the provider starts with no items; the fetch it starts completes in `Init` |
| ListIdentities.ListIdentitiesProvider.Init | src/tree/listIdentities.ts:29-50 | the items become those of the fetched list, or none when the fetch fails |
| ListIdentities.ListIdentitiesProvider.Refresh | src/tree/listIdentities.ts:52-58 | after the re-fetch the items are those of the new list |
| ListIdentities.ListIdentitiesProvider.GetChildren | src/tree/listIdentities.ts:64-69 | the root has the top-level items as children, an item has none |
| ListIdentities.ListIdentitiesProvider.Delete | src/tree/listIdentities.ts:71-80 | runs the identity delete for the one id; when the command never completes nothing changes, otherwise the first matching item goes iff the output mentions the id |
| OryTunnel.OptionLabelInjective | src/oryTunnel.ts:93-113 | option labels are distinct and none collides with application-urls |
| OryTunnel.CollectFlags | src/oryTunnel.ts:78-114 | the flag loop's dictionary is the fold of the picks over the answers, starting from the whitespace-free application URLs |
| OryTunnel.TunnelFlagsKeys | src/oryTunnel.ts:91-114 | the dictionary's keys are application-urls followed by the labels of the kept picks in pick order |
| OryTunnel.TunnelFlagsValue | src/oryTunnel.ts:93-114 | a picked switch stores true, a picked prompted option stores its whitespace-free answer unless dismissed, and None and project store nothing |
| OryTunnel.TunnelFlagsAbsent | src/oryTunnel.ts:93-114 | an option not picked has no entry |
| OryTunnel.TunnelFlagsUrls | src/oryTunnel.ts:91 | the first entry is application-urls with the whitespace-free URLs |
| OryTunnel.KeptLabelsFromPicks | src/oryTunnel.ts:93-114 | only picked options can appear among the kept labels |
| OryTunnel.ProcessCommaSeparated | src/oryTunnel.ts:161-166 | an undefined input gives no pieces; otherwise the pieces joined with commas give back the input, with one piece per comma plus one and no comma in any piece |
| OryTunnel.BuildArgs | src/oryTunnel.ts:116-140 | the argument loop produces the arguments of every entry in key order |
| OryTunnel.PushKey | src/oryTunnel.ts:118-139 | one key's arguments are pushed as the per-key rule says |
| OryTunnel.SwitchArgs | src/oryTunnel.ts:121-124 | dev and debug become a bare --key |
| OryTunnel.CorsArgs | src/oryTunnel.ts:133-137 | allowed-cors-origins becomes one --allowed-cors-origins=url per comma-separated piece |
| OryTunnel.ValuedArgs | src/oryTunnel.ts:139 | the other options become --key=value |
| OryTunnel.UrlsComeFirst | src/oryTunnel.ts:126-131 | the argument list starts with the application URLs as bare arguments, one per comma-separated piece |
| OryTunnel.TunnelArgv | src/oryTunnel.ts:142 | the command is tunnel --project=id followed by the built arguments |
| OryTunnel.CharFor | src/oryTunnel.ts:174 | each draw selects a character of the 62-letter alphabet |
| OryTunnel.IdFromDrawsShape | src/oryTunnel.ts:168-178 | the id has one alphabet character per draw |
| OryTunnel.MakeId | src/oryTunnel.ts:168-178 | the loop builds an id of the requested length from the alphabet, one character per draw |
| OryTunnel.RunOryTunnel | src/oryTunnel.ts:53-158 | a dismissed pick, project or URL prompt stops silently and a dismissed name warns "Name is required"; otherwise the tunnel argv is spawned and exactly one record is appended, with the pid or a ten-character random id, status running and the given name |
| OryTunnel.StartedRecordId | src/oryTunnel.ts:144-149 | the record id is never empty, and without a pid it is ten alphabet characters |
| Introspect.OptionLabelInjective | src/introspect.ts:56-76 | option labels are distinct |
| Introspect.CollectFlags | src/introspect.ts:44-76 | the flag loop's dictionary is the fold of the picks over the answers |
| Introspect.IntrospectFlagsValue | src/introspect.ts:56-76 | skip-tls-verify stores true, a prompted option stores its answer unless dismissed, None stores nothing |
| Introspect.IntrospectFlagsAbsent | src/introspect.ts:56-76 | an option not picked has no entry |
| Introspect.NoneNeverStored | src/introspect.ts:59-60 | the None pick never becomes a key |
| Introspect.BuildArgs | src/introspect.ts:89-98 | the argument loop produces the arguments of every entry in key order |
| Introspect.SkipTlsTwice | src/introspect.ts:94-97 | skip-tls-verify is passed both as a bare switch and as --skip-tls-verify=true |
| Introspect.OtherKeyArgs | src/introspect.ts:97 | every other key becomes --key=value |
| Introspect.IntrospectArgv | src/introspect.ts:100 | the command is introspect token followed by the token, --project=id and the built arguments |
| Introspect.Reformatted | src/introspect.ts:107-109 | every output line is trimmed and its first double tab replaced by ": " |
| Introspect.Entries | src/introspect.ts:111-117 | each line is shown once, tagged with :NULL when it has no colon, and ends with a newline |
| Introspect.ReformatLines | src/introspect.ts:107-109 | the in-place loop reformats every array element |
| Introspect.RenderLines | src/introspect.ts:111-117 | the rendering loop concatenates the tagged lines |
| Introspect.ReformatOutput | src/introspect.ts:104-117 | the active line is the first reformatted line and the details are every reformatted line, tagged |
| Introspect.DetailsLines | src/introspect.ts:104-117 | splitting the details at newlines gives back exactly the tagged reformatted output lines, one per line of the output, plus a trailing empty piece |
| Introspect.RunOryIntrospect | src/introspect.ts:6-133 | a dismissed pick, project or token stops before spawning; otherwise the introspect argv is spawned, and once the process closes the active line and the details come from its output and the active line is announced after the process's own effects |
| OryPatch.OptionLabelInjective | src/oryPatch.ts:140-146 | option labels are distinct and none is projectID |
| OryPatch.CommandInput | src/oryPatch.ts:139-221 | the prompt loop's result is the fold of the options over the answers, or nothing when a prompt is dismissed |
| OryPatch.AbandonedStaysAbandoned | src/oryPatch.ts:172-219 | once the prompt loop returns early, later options cannot revive it |
| OryPatch.PatchFlagsProjectFirst | src/oryPatch.ts:159-170 | a completed dictionary starts with projectID holding the project id, and its keys are distinct |
| OryPatch.StepUnique | src/oryPatch.ts:172-219 | each step keeps the keys distinct |
| OryPatch.TextOptionsNeverAbort | src/oryPatch.ts:208-217 | without the file option the loop always completes |
| OryPatch.FileCancelAborts | src/oryPatch.ts:173-207 | dismissing the file type, the dialog or the location prompt abandons the whole command |
| OryPatch.YamlSkipsDialog | src/oryPatch.ts:174-207 | a YAML file is asked for as text with the base64 placeholder, never by dialog |
| OryPatch.StepOtherKey | src/oryPatch.ts:172-219 | a step leaves every other key unchanged |
| OryPatch.TextStep | src/oryPatch.ts:208-217 | add, remove and replace store a non-empty answer and skip an empty or dismissed one |
| OryPatch.TextOptionValue | src/oryPatch.ts:208-217 | in a completed dictionary a text option holds its non-empty answer, or is absent |
| OryPatch.OptionAbsent | src/oryPatch.ts:172-219 | an option not picked has no entry |
| OryPatch.CommandBuilder | src/oryPatch.ts:128-137 | the builder loop produces the builder arguments of the dictionary |
| OryPatch.BuilderArgsShape | src/oryPatch.ts:128-137 | the arguments are exactly --key=value for every entry other than projectID, in key order |
| OryPatch.BuilderArgsLength | src/oryPatch.ts:128-137 | with projectID present once, there is one argument per other entry |
| OryPatch.PatchArgv | src/oryPatch.ts:61 | the command is patch, the kind label and the project id, followed by the built arguments |
| OryPatch.RunOryPatch | src/oryPatch.ts:6-126 | no kind picked runs nothing; a dismissed input stops; otherwise the patch argv is spawned under the kind's name with no panel |
| JwkChoices.LabelsAccepted | src/oryCreate.ts:32-46 | the algorithm and key-use labels are among the offered ones and name their choices uniquely |
| OryImport.CommandInput | src/oryImport.ts:264-297 | the input is the project id followed by every chosen file, and nothing when a prompt is dismissed |
| OryImport.IdentitiesArgv | src/oryImport.ts:52-54 | the command is import identities, the files, then --project and the id |
| OryImport.JwkArgv | src/oryImport.ts:143-148 | the command is import jwk, the set id, the files, project and the id, then the built flags |
| OryImport.OAuth2Argv | src/oryImport.ts:240-247 | the command is import oauth2-client, the files, project and the id, then the built flags |
| OryImport.CollectJwkFlags | src/oryImport.ts:108-142 | the flag loop's result is the fold of the picks over the answers, or nothing when a pick is dismissed |
| OryImport.JwkAbandonedStays | src/oryImport.ts:110-142 | once the loop returns early, later flags cannot revive it |
| OryImport.JwkPickCancelAborts | src/oryImport.ts:123-138 | dismissing the algorithm or use pick abandons the import |
| OryImport.JwkFlagsAllowed | src/oryImport.ts:110-142 | a completed dictionary only holds alg with an offered algorithm and use with an offered key use |
| OryImport.PutAllowed | src/oryImport.ts:127-140 | storing an offered algorithm or use keeps the dictionary allowed |
| OryImport.JwkCommandAllowed | src/oryImport.ts:143-148 | every JWK flag becomes --key=value, one argument per entry |
| OryImport.WithoutProjectSame | src/oryImport.ts:253-262 | the builder skips nothing from a JWK flag dictionary |
| OryImport.CollectOAuth2Flags | src/oryImport.ts:196-239 | the flag loop's result is the fold of the picks over the answers, or nothing when a prompt is dismissed |
| OryImport.OAuth2AbandonedStays | src/oryImport.ts:198-239 | once the loop returns early, later flags cannot revive it |
| OryImport.OAuth2LabelInjective | src/oryImport.ts:159-177 | flag labels are distinct |
| OryImport.OAuth2FlagValue | src/oryImport.ts:198-239 | in a completed dictionary each picked flag other than none holds its answer |
| OryImport.NoneNeverStored | src/oryImport.ts:198-239 | the none pick never becomes a key |
| OryImport.OryImportIdentities | src/oryImport.ts:45-58 | a dismissed input stops; otherwise the identities import is spawned with no panel |
| OryImport.OryImportJwk | src/oryImport.ts:60-156 | a dismissed flag pick stops; a dismissed set id shows "Invalid jwk set id undefined"; any later dismissal stops silently; the import runs iff every prompt is answered, with the built flags |
| OryImport.OryImportOAuth2Client | src/oryImport.ts:158-251 | the import runs iff every prompt is answered, with the built flags, and reports under the project name |
| OryCreate.AlgorithmText | src/oryCreate.ts:52 | a dismissed algorithm prints as undefined and only then; otherwise it is an offered label |
| OryCreate.UseText | src/oryCreate.ts:54 | a dismissed use prints as undefined and only then; otherwise it is an offered label |
| OryCreate.JwkCreateArgv | src/oryCreate.ts:47-55 | the command is create jwk with the set id, --alg with the algorithm and --use with the use, undefined for a dismissed pick |
| OryCreate.ProjectCreateArgv | src/oryCreate.ts:130 | the command is create project --name with the name |
| OryCreate.JwkCreatedWithEmptySetId | src/oryCreate.ts:60 | with an empty set id every output chunk counts as a success |
| OryCreate.StderrReaction | src/oryCreate.ts:91-108 | an expired session offers re-authentication; other chunks cause nothing; a kill happens iff the branch kills and the session expired; no error message is shown |
| OryCreate.JwkSuccessIff | src/oryCreate.ts:57-89 | the JWK success message appears iff some stdout chunk holds the table header or the set id |
| OryCreate.JwkNeverKills | src/oryCreate.ts:91-108 | the JWK command never kills a process and never shows an error message |
| OryCreate.ProjectSuccessIff | src/oryCreate.ts:132-155 | the project success message appears iff some stdout chunk holds NAME, a tab and the name |
| OryCreate.ProjectKillIff | src/oryCreate.ts:157-174 | the project command is killed iff some stderr chunk reports an expired session |
| OryCreate.ValueAt | src/oryCreate.ts:75 | a missing value prints as undefined |
| OryCreate.DetailRows | src/oryCreate.ts:74-76 | there is one heading: value row per heading |
| OryCreate.JwkDetails | src/oryCreate.ts:63-81 | the details exist iff the output has a second line |
| OryCreate.JwkViewDetails | src/oryCreate.ts:63-81 | the details loop builds the JWK details |
| OryCreate.FieldsNewlineFree | src/oryCreate.ts:67-72 | no heading or value contains a newline |
| OryCreate.JwkDetailsLines | src/oryCreate.ts:63-81 | the details split into one heading: value line per non-empty heading, plus a trailing empty piece |
| OryCreate.ProjectRows | src/oryCreate.ts:139-142 | there is one row per output line |
| OryCreate.ReplaceFirstTabs | src/oryCreate.ts:139-142 | the in-place loop rewrites every line of the array |
| OryCreate.ProjectViewDetails | src/oryCreate.ts:138-147 | the details are the rewritten lines joined with newlines |
| OryCreate.ReplaceFirstTab | src/oryCreate.ts:141 | a line without a tab is unchanged; otherwise exactly one tab is replaced |
| OryCreate.ProjectDetailsLines | src/oryCreate.ts:138-147 | the details split back into one row per output line, each with its first tab replaced by ": " |
| OryCreate.RunOryCreate | src/oryCreate.ts:8-188 | a JWK or project is created iff its set id or name is given; a dismissed one shows "Invalid … undefined"; oauth2-client and relationships only announce themselves; effects follow the stdout and stderr handlers |
| OryAuth.VirtualEnter | src/oryAuth.ts:9 | enter is a carriage return on Windows and a newline elsewhere |
| OryAuth.ScriptShape | src/oryAuth.ts:112-120 | three answers are written, six when the first answer is exactly n, each followed by enter |
| OryAuth.UppercaseNSendsThree | src/oryAuth.ts:18-120 | an upper-case N is lower-cased into the registration prompts, yet only three answers are written |
| OryAuth.RegistrationError | src/oryAuth.ts:171-173 | the message exists iff the output has a second line; with enter a newline it is that line; it holds no newline |
| OryAuth.TotpCancelStops | src/oryAuth.ts:129-136 | dismissing the authentication-code prompt ends the handler with no writes, effects or kill |
| OryAuth.ReactionClassification | src/oryAuth.ts:122-193 | sign-in success is shown iff the output names the email; a failed sign-in offers a retry with the failure message and kills iff reported; every message is the success notice or a retry offer, never a plain error box; the code is written iff asked for |
| OryAuth.PtySession.constructor | src/oryAuth.ts:111 | a new session has written nothing and is not killed |
| OryAuth.PtySession.Write | src/oryAuth.ts:112 | a write appends its text |
| OryAuth.PtySession.Kill | src/oryAuth.ts:167 | a kill marks the session killed |
| OryAuth.PtySession.OnData | src/oryAuth.ts:122-193 | one output chunk appends the reaction's writes, kills on failure and returns the reaction's effects, whose failure boxes offer a retry |
| OryAuth.OryAuthHelper | src/oryAuth.ts:102-120 | a fresh session has received exactly the scripted answers |
| OryAuth.RunOryAuth | src/oryAuth.ts:8-100 | a session starts iff every prompt of the chosen y or n path is answered, with that path's script |
| OryAuth.LogoutEffects | src/oryAuth.ts:202-222 | each stdout chunk of the logout shows the sign-out message, and nothing else is shown |
| OryGet.GetCommandInput | src/oryGet.ts:270-292 | a dismissed prompt is the Invalid input error; list kinds split the input, others keep it whole |
| OryGet.GetArgv | src/oryGet.ts:40 | the command is get, the kind, the ids, then --format and the format |
| OryGet.RunOryGet | src/oryGet.ts:8-240 | every picked kind runs; a dismissed input shows the error and runs with no ids |
| OryGet.CancelledIdsStillRun | src/oryGet.ts:25-40 | with no ids the command is get, the kind and the format flag |
| OryGet.PanelPerChunk | src/oryGet.ts:42-48 | a panel opens for a content iff some stdout chunk is that content, with the kind's view type and a yaml or json title |
| OryGet.EventPanel | src/oryGet.ts:42-48 | one event opens that panel iff it is the stdout chunk with that content |
| OryGet.KillIff | src/oryGet.ts:294-317 | the process is killed iff some stderr chunk reports an expired session |
| OryUpdate.UpdateFileType | src/oryUpdate.ts:84-100 | a dismissed pick counts as json; yaml, url and base64 correspond to their picks; yaml/yml is never returned |
| OryUpdate.DialogOnlyForJson | src/oryUpdate.ts:43 | the file dialog opens only for json or a dismissed pick |
| OryUpdate.LocationPrefix | src/oryUpdate.ts:67 | url gets the URL example, every other type the base64 one, and only url gets the URL example |
| OryUpdate.YamlPromptedAsBase64 | src/oryUpdate.ts:43-72 | a YAML upload is prompted for with the base64 placeholder |
| OryUpdate.UpdateArgv | src/oryUpdate.ts:54-60 | the command is update identity-config, the project id, then --file and the location |
| OryUpdate.RunOryUpdate | src/oryUpdate.ts:6-82 | only identity-config runs, and only when the project and the location are given; the update reports under update with no panel |
| OryDelete.DeleteArgv | src/oryDelete.ts:95-147 | the command is delete, the kind, the ids, then --format json |
| OryDelete.OryDeleteKind | src/oryDelete.ts:95-147 | the delete is spawned with the kind's argv and resolves to the closed output, with no panel |
| OryDelete.RunOryDelete | src/oryDelete.ts:6-93 | a dismissed input logs the kind's Invalid input line; otherwise list kinds delete one id per comma plus one, single kinds one id |

## Left out

- Logging, the output channel, console output and the webview HTML are left out. Panels are recorded by view type, title and content.
- Terminal control sequences are removed before the auth handler sees the output; the model takes the output as already stripped.
- `JSON.parse` of the list commands' output is left out; the tree providers take the parsed identities and relation tuples as input.
- The tree items' icons, context values and collapsible states, and the change-notification events, are left out.
- The `ory` command name, which depends on the platform, is left out; argument vectors start at the subcommand.
- `Math.random` is not modelled as randomness: the tunnel id takes an explicit sequence of draws in [0, 1).
- The pseudo-terminal's exit handler only logs and is left out, as is the "account already exists" message, which is only logged.
- The import command's flag-less JWK spawn is left out because its guard, a dictionary compared with null, is always true.
- The command dispatchers (`runOryImport`, `runOryPatch`) are folded into the per-kind operations, which take the pick as input.
- ListRelationships.ListRelationshipsProvider.Refresh: states only the emptied grouping; the re-fetch completes later as `Init`.
- ListIdentities.ListIdentitiesProvider.Refresh: states only the final items; the empty list it holds while the re-fetch runs is not modelled.
- ListIdentities.ListIdentitiesProvider.Delete: a delete whose command never closes leaves the list unchanged, because its await never returns.
- OryAuth.ReactionClassification: states the retry offer with the sign-in failure message in one direction only. A failed sign-in offers it, but a registration failure whose second output line happens to be that same text offers it too, so the converse does not hold.
- OryAuth.PtySession.OnData: each chunk is handled to the end before the next one. The source's handler is asynchronous: a chunk that asks for the authentication code runs its success, failure and registration checks only after the code prompt is answered, so handlers for later chunks can run in between. That interleaving is not modelled.
- ListRelationships.RelationshipsTreeItem.GetChildren: the source returns the item's own `children` array, so a caller that later mutates it changes the item's children. The model returns the children as a value and does not capture that aliasing.
- JsText.ToLower: folds the ASCII letters only. The only use is comparing the sign-in answer with `y` and `n`, and no other character lower-cases to either.
- Relationship subjects and relations, and identity trait keys, that look like array indices are assumed absent. JavaScript enumerates such object keys first, in numeric order, so `Object.keys(identity.traits)` in `src/tree/listIdentities.ts:38` could pick another first trait; the model keeps plain insertion order.
- ListIdentities.ToIdentity: trait values are strings. An object-valued trait, such as a structured name, would show as `[object Object]` in the item's label and tooltip; that rendering is not modelled.
- ListRelationships.ListRelationshipsProvider.Init, OryUpdate.RunOryUpdate: `src/tree/listRelationships.ts:4` and `src/oryUpdate.ts:4` import `spwanCommonErrAndClose` from `./helper`, which exports only `spawnCommonErrAndClose` (`src/helper/index.ts:5`). The model takes the misspelt name to be that helper. As written, the name does not resolve. TypeScript rejects the import, and a call through it at run time would throw: the relationships fetch would reject and the update command's spawned process would get no output handlers. That behaviour is not modelled.
- OryGet.RunOryGet: a rejected input prompt passes the thrown `Error` object itself to `showErrorMessage`; the model records the error by its message, "Invalid input".
- The get command's local `format` and the update command's local `commandInput` are the same code as the shared helpers and are modelled by them.
