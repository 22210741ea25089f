/**
 * `ory patch <kind>`: the picked patch options and their answers become a flag dictionary
 * whose first key is the project ID, and the dictionary becomes `--key=value` arguments.
 */
module OryPatch {
  import opened Wrappers
  import opened JsText
  import opened JsDict
  import opened Helper

  /** The configurations that can be patched. */
  datatype PatchKind = IdentityConfig | OAuth2Config | PermissionConfig | ProjectConfig | Opl

  function KindLabel(k: PatchKind): string
  {
    match k
    case IdentityConfig => "identity-config"
    case OAuth2Config => "oauth2-config"
    case PermissionConfig => "permission-config"
    case ProjectConfig => "project"
    case Opl => "opl"
  }

  /** The entries of the options pick. */
  datatype PatchOption = Add | Remove | Replace | File

  function OptionLabel(o: PatchOption): string
  {
    match o
    case Add => "add"
    case Remove => "remove"
    case Replace => "replace"
    case File => "file"
  }

  lemma OptionLabelInjective(a: PatchOption, b: PatchOption)
    ensures OptionLabel(a) == OptionLabel(b) <==> a == b
    ensures OptionLabel(a) != "projectID"
  {
    assert |OptionLabel(a)| != |"projectID"|;
    if a != b {
      assert |OptionLabel(a)| != |OptionLabel(b)|;
    }
  }

  predicate Distinct(options: seq<PatchOption>)
  {
    forall i, j :: 0 <= i < j < |options| ==> options[i] != options[j]
  }

  /**
   * What the prompts shown for one option returned: the upload-type pick and then either the
   * open dialog's first path or the text prompt (for `file`), or the text prompt alone.
   */
  datatype PatchAnswer = PatchAnswer(uploadPick: Option<UploadPick>, dialog: Option<string>, text: Option<string>)

  /** The placeholder of the text prompt for a URL or base64 upload. */
  function UploadPlaceholder(fileTypeInput: string): string
  {
    if fileTypeInput == "url" then "https://example.org/config.yaml" else "base64://<json>"
  }

  /** One pass of the options loop; `None` once the command has been abandoned. */
  function PatchStep(flags: Option<Dict<string>>, o: PatchOption, a: PatchAnswer): Option<Dict<string>>
  {
    if flags.None? then None
    else if o == File then
      var fileTypeInput := FileType(a.uploadPick);
      if fileTypeInput == NoUploadTypeSelected then None
      else if fileTypeInput == "yaml/yml" || fileTypeInput == "json" then
        if a.dialog.None? then None else Some(Put(flags.value, OptionLabel(o), a.dialog.value))
      else if a.text.None? then None
      else Some(Put(flags.value, OptionLabel(o), a.text.value))
    else if a.text.Some? && a.text.value != "" then Some(Put(flags.value, OptionLabel(o), a.text.value))
    else flags
  }

  /** The dictionary after the options loop, or `None` when a `file` prompt was cancelled. */
  function PatchFlags(projectID: string, options: seq<PatchOption>, answers: seq<PatchAnswer>): Option<Dict<string>>
    requires |answers| == |options|
  {
    if options == [] then Some(Put([], "projectID", projectID))
    else
      var n := |options| - 1;
      PatchStep(PatchFlags(projectID, options[..n], answers[..n]), options[n], answers[n])
  }

  /** What `commandInput` returns: `None` (undefined) when the options pick or the project prompt was cancelled. */
  function PatchInputs(options: Option<seq<PatchOption>>, projectID: Option<string>, answers: seq<PatchAnswer>): Option<Dict<string>>
    requires options.Some? ==> |answers| == |options.value|
  {
    if options.None? || projectID.None? then None else PatchFlags(projectID.value, options.value, answers)
  }

  lemma {:induction false} AbandonedStaysAbandoned(projectID: string, options: seq<PatchOption>, answers: seq<PatchAnswer>, i: nat)
    requires |answers| == |options| && i <= |options|
    requires PatchFlags(projectID, options[..i], answers[..i]).None?
    ensures PatchFlags(projectID, options, answers).None?
    decreases |options| - i
  {
    if i < |options| {
      TakeSnoc(options, i);
      TakeSnoc(answers, i);
      AbandonedStaysAbandoned(projectID, options, answers, i + 1);
    } else {
      assert options[..i] == options && answers[..i] == answers;
    }
  }

  lemma PatchFlagsSnoc(projectID: string, options: seq<PatchOption>, answers: seq<PatchAnswer>, i: nat)
    requires |answers| == |options| && i < |options|
    ensures PatchFlags(projectID, options[..i + 1], answers[..i + 1]) ==
      PatchStep(PatchFlags(projectID, options[..i], answers[..i]), options[i], answers[i])
  {
    TakeSnoc(options, i);
    TakeSnoc(answers, i);
  }

  /** `commandInput`. */
  method CommandInput(options: Option<seq<PatchOption>>, projectID: Option<string>, answers: seq<PatchAnswer>)
    returns (r: Option<Dict<string>>)
    requires options.Some? ==> |answers| == |options.value|
    ensures r == PatchInputs(options, projectID, answers)
  {
    if options.None? {
      return None;
    }
    if projectID.None? {
      return None;
    }
    var opts := options.value;
    var flagDataJson := Put([], "projectID", projectID.value);
    for i := 0 to |opts|
      invariant PatchFlags(projectID.value, opts[..i], answers[..i]) == Some(flagDataJson)
    {
      PatchFlagsSnoc(projectID.value, opts, answers, i);
      var option := opts[i];
      var answer := answers[i];
      if option == File {
        var fileTypeInput := FileType(answer.uploadPick);
        if fileTypeInput == NoUploadTypeSelected {
          AbandonedStaysAbandoned(projectID.value, opts, answers, i + 1);
          return None;
        }
        if fileTypeInput == "yaml/yml" || fileTypeInput == "json" {
          var fileLocation := answer.dialog;
          if fileLocation.None? {
            AbandonedStaysAbandoned(projectID.value, opts, answers, i + 1);
            return None;
          }
          flagDataJson := Put(flagDataJson, OptionLabel(option), fileLocation.value);
        } else {
          var configURL := answer.text;
          if configURL.None? {
            AbandonedStaysAbandoned(projectID.value, opts, answers, i + 1);
            return None;
          }
          flagDataJson := Put(flagDataJson, OptionLabel(option), configURL.value);
        }
      } else {
        var val := answer.text;
        if val.Some? && val.value != "" {
          flagDataJson := Put(flagDataJson, OptionLabel(option), val.value);
        }
      }
    }
    assert opts[..|opts|] == opts && answers[..|answers|] == answers;
    r := Some(flagDataJson);
  }

  /**
   * Whenever the loop gets through, `projectID` is the first key and keeps the typed value,
   * and no key is repeated.
   */
  lemma {:induction false} PatchFlagsProjectFirst(projectID: string, options: seq<PatchOption>, answers: seq<PatchAnswer>)
    requires |answers| == |options|
    requires PatchFlags(projectID, options, answers).Some?
    ensures var d := PatchFlags(projectID, options, answers).value;
      d != [] && d[0].0 == "projectID" && Lookup(d, "projectID") == Some(projectID) && UniqueKeys(d)
    decreases |options|
  {
    if options != [] {
      var n := |options| - 1;
      var prev := PatchFlags(projectID, options[..n], answers[..n]);
      PatchFlagsProjectFirst(projectID, options[..n], answers[..n]);
      OptionLabelInjective(options[n], options[n]);
      StepUnique(prev.value, options[n], answers[n]);
    }
  }

  /** A step keeps the keys distinct. */
  lemma StepUnique(d: Dict<string>, o: PatchOption, a: PatchAnswer)
    requires UniqueKeys(d)
    requires PatchStep(Some(d), o, a).Some?
    ensures UniqueKeys(PatchStep(Some(d), o, a).value)
  {
    var fileTypeInput := FileType(a.uploadPick);
    if o == File && (fileTypeInput == "yaml/yml" || fileTypeInput == "json") {
      PutUnique(d, OptionLabel(o), a.dialog.value);
    } else if a.text.Some? {
      PutUnique(d, OptionLabel(o), a.text.value);
    }
  }

  /** Options whose prompts cannot abort (add, remove, replace) never abandon the command. */
  lemma {:induction false} TextOptionsNeverAbort(projectID: string, options: seq<PatchOption>, answers: seq<PatchAnswer>)
    requires |answers| == |options|
    requires File !in options
    ensures PatchFlags(projectID, options, answers).Some?
    decreases |options|
  {
    if options != [] {
      var n := |options| - 1;
      assert File !in options[..n];
      TextOptionsNeverAbort(projectID, options[..n], answers[..n]);
    }
  }

  /** A `file` option whose type pick, dialog or URL prompt is cancelled abandons the whole command. */
  lemma FileCancelAborts(projectID: string, options: seq<PatchOption>, answers: seq<PatchAnswer>, i: nat)
    requires |answers| == |options| && i < |options|
    requires options[i] == File
    requires || answers[i].uploadPick.None?
             || (answers[i].uploadPick == Some(JsonUpload) && answers[i].dialog.None?)
             || (answers[i].uploadPick != Some(JsonUpload) && answers[i].text.None?)
    ensures PatchFlags(projectID, options, answers).None?
  {
    TakeSnoc(options, i);
    TakeSnoc(answers, i);
    AbandonedStaysAbandoned(projectID, options, answers, i + 1);
  }

  /**
   * Because `fileType` reports a YAML pick as `yaml`, never `yaml/yml`, only JSON reaches the
   * open dialog: a YAML pick ignores the dialog and stores the text prompt's answer, under
   * the base64 placeholder.
   */
  lemma YamlSkipsDialog(d: Dict<string>, dialog: Option<string>, text: Option<string>)
    ensures PatchStep(Some(d), File, PatchAnswer(Some(YamlUpload), dialog, text)) ==
      if text.None? then None else Some(Put(d, "file", text.value))
    ensures UploadPlaceholder(FileType(Some(YamlUpload))) == "base64://<json>"
  {
  }

  /** A step leaves every other key's entry as it was. */
  lemma StepOtherKey(d: Dict<string>, o: PatchOption, a: PatchAnswer, k: string)
    requires k != OptionLabel(o)
    requires PatchStep(Some(d), o, a).Some?
    ensures Lookup(PatchStep(Some(d), o, a).value, k) == Lookup(d, k)
  {
  }

  /** A step on add, remove or replace stores a non-empty answer and otherwise changes nothing. */
  lemma TextStep(d: Dict<string>, o: PatchOption, a: PatchAnswer)
    requires o != File
    ensures PatchStep(Some(d), o, a) ==
      if a.text.Some? && a.text.value != "" then Some(Put(d, OptionLabel(o), a.text.value)) else Some(d)
  {
  }

  /** add, remove and replace store the typed value only when it is non-empty; otherwise the key is left out. */
  lemma {:induction false} TextOptionValue(projectID: string, options: seq<PatchOption>, answers: seq<PatchAnswer>, i: nat)
    requires |answers| == |options| && i < |options|
    requires Distinct(options)
    requires options[i] != File
    requires PatchFlags(projectID, options, answers).Some?
    ensures Lookup(PatchFlags(projectID, options, answers).value, OptionLabel(options[i])) ==
      if answers[i].text.Some? && answers[i].text.value != "" then answers[i].text else None
    decreases |options|
  {
    var n := |options| - 1;
    var prev := PatchFlags(projectID, options[..n], answers[..n]);
    assert PatchFlags(projectID, options, answers) == PatchStep(prev, options[n], answers[n]);
    var d := prev.value;
    var key := OptionLabel(options[i]);
    OptionLabelInjective(options[i], options[n]);
    if i < n {
      TextOptionValue(projectID, options[..n], answers[..n], i);
      StepOtherKey(d, options[n], answers[n], key);
    } else {
      OptionAbsent(projectID, options[..n], answers[..n], options[i]);
      TextStep(d, options[i], answers[i]);
    }
  }

  lemma {:induction false} OptionAbsent(projectID: string, options: seq<PatchOption>, answers: seq<PatchAnswer>, o: PatchOption)
    requires |answers| == |options|
    requires o !in options
    requires PatchFlags(projectID, options, answers).Some?
    ensures Lookup(PatchFlags(projectID, options, answers).value, OptionLabel(o)) == None
    decreases |options|
  {
    OptionLabelInjective(o, o);
    if options != [] {
      var n := |options| - 1;
      assert o !in options[..n];
      OptionLabelInjective(o, options[n]);
      OptionAbsent(projectID, options[..n], answers[..n], o);
    }
  }

  // ---------------------------------------------------------------------------
  // commandBuilder

  /** The argument one entry contributes: none for `projectID`, else `--key=value`. */
  function BuilderEntry(entry: (string, string)): seq<string>
  {
    if entry.0 == "projectID" then [] else ["--" + entry.0 + "=" + entry.1]
  }

  function BuilderArgs(input: Dict<string>): seq<string>
  {
    FlatMap(input, BuilderEntry)
  }

  /** `commandBuilder` (the same code serves patch and import). */
  method CommandBuilder(input: Dict<string>) returns (stringBuilder: seq<string>)
    ensures stringBuilder == BuilderArgs(input)
  {
    stringBuilder := [];
    for i := 0 to |input|
      invariant stringBuilder == BuilderArgs(input[..i])
    {
      TakeSnoc(input, i);
      var key := input[i].0;
      if key == "projectID" {
        continue;
      }
      stringBuilder := stringBuilder + ["--" + key + "=" + input[i].1];
    }
    assert input[..|input|] == input;
  }

  /** The entries other than `projectID`, in order. */
  function WithoutProject(input: Dict<string>): Dict<string>
  {
    if input == [] then []
    else
      var n := |input| - 1;
      WithoutProject(input[..n]) + (if input[n].0 == "projectID" then [] else [input[n]])
  }

  /** commandBuilder gives exactly one `--key=value` per entry other than `projectID`, in key order. */
  lemma {:induction false} BuilderArgsShape(input: Dict<string>)
    ensures var rest := WithoutProject(input);
      && |BuilderArgs(input)| == |rest|
      && forall k :: 0 <= k < |rest| ==> BuilderArgs(input)[k] == "--" + rest[k].0 + "=" + rest[k].1
    decreases |input|
  {
    if input != [] {
      BuilderArgsShape(input[..|input| - 1]);
    }
  }

  lemma {:induction false} WithoutProjectAppend(a: Dict<string>, b: Dict<string>)
    ensures WithoutProject(a + b) == WithoutProject(a) + WithoutProject(b)
    decreases |b|
  {
    if b == [] {
      assert a + b == a;
    } else {
      var n := |b| - 1;
      assert (a + b)[..|a + b| - 1] == a + b[..n];
      WithoutProjectAppend(a, b[..n]);
    }
  }

  lemma {:induction false} WithoutProjectNone(d: Dict<string>)
    requires forall k :: 0 <= k < |d| ==> d[k].0 != "projectID"
    ensures WithoutProject(d) == d
    decreases |d|
  {
    if d != [] {
      WithoutProjectNone(d[..|d| - 1]);
    }
  }

  /** With distinct keys one of which is `projectID`, exactly one entry is dropped. */
  lemma WithoutProjectLength(input: Dict<string>, p: nat)
    requires UniqueKeys(input)
    requires p < |input| && input[p].0 == "projectID"
    ensures |WithoutProject(input)| == |input| - 1
  {
    var before, after := input[..p], input[p + 1..];
    assert input == before + [input[p]] + after;
    forall k | 0 <= k < |before| ensures before[k].0 != "projectID" {
      assert input[k].0 != input[p].0;
    }
    forall k | 0 <= k < |after| ensures after[k].0 != "projectID" {
      assert input[p + 1 + k].0 != input[p].0;
    }
    WithoutProjectAppend(before + [input[p]], after);
    WithoutProjectAppend(before, [input[p]]);
    assert WithoutProject([input[p]]) == [] by {
      assert [input[p]][..0] == [];
    }
    WithoutProjectNone(before);
    WithoutProjectNone(after);
  }

  /** With distinct keys one of which is `projectID`, commandBuilder gives one argument fewer than there are keys. */
  lemma BuilderArgsLength(input: Dict<string>)
    requires UniqueKeys(input)
    requires "projectID" in Keys(input)
    ensures |BuilderArgs(input)| == |input| - 1
  {
    var p :| 0 <= p < |input| && Keys(input)[p] == "projectID";
    WithoutProjectLength(input, p);
    BuilderArgsShape(input);
  }

  // ---------------------------------------------------------------------------
  // The command

  /** The spawned argument vector. */
  function PatchArgv(kind: PatchKind, projectID: string, command: seq<string>): (r: seq<string>)
    ensures |r| == |command| + 3 && r[..3] == ["patch", KindLabel(kind), projectID] && r[3..] == command
  {
    ["patch", KindLabel(kind), projectID] + command
  }

  datatype PatchOutcome =
    | NotRun
    | Cancelled
    | Patched(argv: seq<string>, effects: seq<Effect>, resolved: Option<string>)

  /**
   * `runOryPatch` and the five `oryPatch...` functions. A cancelled kind pick matches no case;
   * `events` is what the spawned CLI emits.
   */
  method RunOryPatch(
    kind: Option<PatchKind>,
    options: Option<seq<PatchOption>>,
    projectID: Option<string>,
    answers: seq<PatchAnswer>,
    events: seq<ProcessEvent>)
    returns (outcome: PatchOutcome)
    requires options.Some? ==> |answers| == |options.value|
    ensures kind.None? <==> outcome == NotRun
    ensures kind.Some? ==> (outcome == Cancelled <==> PatchInputs(options, projectID, answers).None?)
    ensures outcome.Patched? ==>
      && outcome.argv == PatchArgv(kind.value, projectID.value, BuilderArgs(PatchInputs(options, projectID, answers).value))
      && outcome.effects == AllEffects(KindLabel(kind.value), Some(""), events)
      && outcome.resolved == Resolution(events)
  {
    if kind.None? {
      return NotRun;
    }
    var inputs := CommandInput(options, projectID, answers);
    if inputs.None? {
      return Cancelled;
    }
    PatchFlagsProjectFirst(projectID.value, options.value, answers);
    var command := CommandBuilder(inputs.value);
    var id := Lookup(inputs.value, "projectID").value;
    var argv := ["patch", KindLabel(kind.value), id] + command;
    var resolved, effects := SpawnCommonErrAndClose(KindLabel(kind.value), Some(""), events);
    outcome := Patched(argv, effects, resolved);
  }
}
