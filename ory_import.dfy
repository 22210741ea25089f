/**
 * `ory import identities | jwk | oauth2-client`: the project ID and the selected files, plus
 * for keys and clients a flag dictionary filled from further picks, become the argument
 * vector of the import.
 */
module OryImport {
  import opened Wrappers
  import opened JsText
  import opened JsDict
  import opened Helper
  import opened JwkChoices
  import OryPatch

  /** `commandInput`: `[projectID, ...paths]`, in dialog order; `None` when either prompt is cancelled. */
  method CommandInput(projectID: Option<string>, fileLocation: Option<seq<string>>) returns (r: Option<seq<string>>)
    ensures projectID.None? || fileLocation.None? <==> r.None?
    ensures r.Some? ==> r.value == [projectID.value] + fileLocation.value
  {
    if projectID.None? {
      return None;
    }
    var flagDataJson := [projectID.value];
    if fileLocation.None? {
      return None;
    }
    var files := fileLocation.value;
    for i := 0 to |files|
      invariant flagDataJson == [projectID.value] + files[..i]
    {
      flagDataJson := flagDataJson + [files[i]];
    }
    assert files[..|files|] == files;
    r := Some(flagDataJson);
  }

  /** The identities import: files first, then `--project <id>`. */
  function IdentitiesArgv(projectID: string, files: seq<string>): (r: seq<string>)
    ensures |r| == |files| + 4
    ensures r[..2] == ["import", "identities"] && r[2..|files| + 2] == files
    ensures r[|files| + 2..] == ["--project", projectID]
  {
    ["import", "identities"] + files + ["--project", projectID]
  }

  /** The key import: the set ID, the files, a bare `project` token and the ID, then the flags. */
  function JwkArgv(setId: string, projectID: string, files: seq<string>, command: seq<string>): (r: seq<string>)
    ensures |r| == |files| + |command| + 5
    ensures r[..3] == ["import", "jwk", setId] && r[3..|files| + 3] == files
    ensures r[|files| + 3] == "project" && r[|files| + 4] == projectID && r[|files| + 5..] == command
  {
    ["import", "jwk", setId] + files + ["project", projectID] + command
  }

  /** The client import: the files, a bare `project` token and the ID, then the flags. */
  function OAuth2Argv(projectID: string, files: seq<string>, command: seq<string>): (r: seq<string>)
    ensures |r| == |files| + |command| + 4
    ensures r[..2] == ["import", "oauth2-client"] && r[2..|files| + 2] == files
    ensures r[|files| + 2] == "project" && r[|files| + 3] == projectID && r[|files| + 4..] == command
  {
    ["import", "oauth2-client"] + files + ["project", projectID] + command
  }

  // ---------------------------------------------------------------------------
  // Key flags

  datatype JwkFlag = AlgFlag | UseFlag | NoneFlag

  /** What the algorithm and use picks returned for one flag (only the one the flag asks for is read). */
  datatype JwkFlagAnswer = JwkFlagAnswer(algorithm: Option<Algorithm>, intendedUse: Option<KeyUse>)

  /** One pass of the key-flag loop; `None` once a pick was cancelled. */
  function JwkStep(flags: Option<Dict<string>>, f: JwkFlag, a: JwkFlagAnswer): Option<Dict<string>>
  {
    if flags.None? then None
    else if f == AlgFlag then
      if a.algorithm.None? then None else Some(Put(flags.value, "alg", AlgorithmLabel(a.algorithm.value)))
    else if f == UseFlag then
      if a.intendedUse.None? then None else Some(Put(flags.value, "use", UseLabel(a.intendedUse.value)))
    else flags
  }

  function JwkFlags(picks: seq<JwkFlag>, answers: seq<JwkFlagAnswer>): Option<Dict<string>>
    requires |answers| == |picks|
  {
    if picks == [] then Some([])
    else
      var n := |picks| - 1;
      JwkStep(JwkFlags(picks[..n], answers[..n]), picks[n], answers[n])
  }

  lemma JwkFlagsSnoc(picks: seq<JwkFlag>, answers: seq<JwkFlagAnswer>, i: nat)
    requires |answers| == |picks| && i < |picks|
    ensures JwkFlags(picks[..i + 1], answers[..i + 1]) == JwkStep(JwkFlags(picks[..i], answers[..i]), picks[i], answers[i])
  {
    TakeSnoc(picks, i);
    TakeSnoc(answers, i);
  }

  lemma {:induction false} JwkAbandonedStays(picks: seq<JwkFlag>, answers: seq<JwkFlagAnswer>, i: nat)
    requires |answers| == |picks| && i <= |picks|
    requires JwkFlags(picks[..i], answers[..i]).None?
    ensures JwkFlags(picks, answers).None?
    decreases |picks| - i
  {
    if i < |picks| {
      JwkFlagsSnoc(picks, answers, i);
      JwkAbandonedStays(picks, answers, i + 1);
    } else {
      assert picks[..i] == picks && answers[..i] == answers;
    }
  }

  /** The key-flag loop. */
  method CollectJwkFlags(picks: seq<JwkFlag>, answers: seq<JwkFlagAnswer>) returns (r: Option<Dict<string>>)
    requires |answers| == |picks|
    ensures r == JwkFlags(picks, answers)
  {
    var flagDataJson: Dict<string> := [];
    for i := 0 to |picks|
      invariant JwkFlags(picks[..i], answers[..i]) == Some(flagDataJson)
    {
      JwkFlagsSnoc(picks, answers, i);
      var flag := picks[i];
      if flag == AlgFlag {
        var algorithm := answers[i].algorithm;
        if algorithm.None? {
          JwkAbandonedStays(picks, answers, i + 1);
          return None;
        }
        flagDataJson := Put(flagDataJson, "alg", AlgorithmLabel(algorithm.value));
      }
      if flag == UseFlag {
        var intendedUse := answers[i].intendedUse;
        if intendedUse.None? {
          JwkAbandonedStays(picks, answers, i + 1);
          return None;
        }
        flagDataJson := Put(flagDataJson, "use", UseLabel(intendedUse.value));
      }
    }
    assert picks[..|picks|] == picks && answers[..|answers|] == answers;
    r := Some(flagDataJson);
  }

  /** The key flags only ever hold `alg` with an algorithm name and `use` with `sig` or `enc`. */
  predicate JwkEntriesAllowed(d: Dict<string>)
  {
    forall k :: 0 <= k < |d| ==>
      (d[k].0 == "alg" && d[k].1 in AlgorithmLabels) || (d[k].0 == "use" && d[k].1 in UseLabels)
  }

  lemma PutAllowed(d: Dict<string>, key: string, value: string)
    requires JwkEntriesAllowed(d)
    requires (key == "alg" && value in AlgorithmLabels) || (key == "use" && value in UseLabels)
    ensures JwkEntriesAllowed(Put(d, key, value))
    decreases |d|
  {
    if d != [] && d[0].0 != key {
      PutAllowed(d[1..], key, value);
    }
  }

  lemma {:induction false} JwkFlagsAllowed(picks: seq<JwkFlag>, answers: seq<JwkFlagAnswer>)
    requires |answers| == |picks|
    requires JwkFlags(picks, answers).Some?
    ensures JwkEntriesAllowed(JwkFlags(picks, answers).value)
    decreases |picks|
  {
    if picks != [] {
      var n := |picks| - 1;
      var prev := JwkFlags(picks[..n], answers[..n]);
      JwkFlagsAllowed(picks[..n], answers[..n]);
      var a := answers[n];
      if picks[n] == AlgFlag {
        LabelsAccepted(a.algorithm.value, a.algorithm.value, Sig, Sig);
        PutAllowed(prev.value, "alg", AlgorithmLabel(a.algorithm.value));
      } else if picks[n] == UseFlag {
        LabelsAccepted(RS256, RS256, a.intendedUse.value, a.intendedUse.value);
        PutAllowed(prev.value, "use", UseLabel(a.intendedUse.value));
      }
    }
  }

  /**
   * The key flags become one `--alg=<algorithm>` or `--use=sig|enc` argument per stored flag,
   * in flag order; `none` contributes nothing.
   */
  lemma JwkCommandAllowed(picks: seq<JwkFlag>, answers: seq<JwkFlagAnswer>)
    requires |answers| == |picks|
    requires JwkFlags(picks, answers).Some?
    ensures var d := JwkFlags(picks, answers).value;
      && JwkEntriesAllowed(d)
      && |OryPatch.BuilderArgs(d)| == |d|
      && forall k :: 0 <= k < |d| ==> OryPatch.BuilderArgs(d)[k] == "--" + d[k].0 + "=" + d[k].1
  {
    var d := JwkFlags(picks, answers).value;
    JwkFlagsAllowed(picks, answers);
    OryPatch.BuilderArgsShape(d);
    WithoutProjectSame(d);
  }

  lemma WithoutProjectSame(d: Dict<string>)
    requires JwkEntriesAllowed(d)
    ensures OryPatch.WithoutProject(d) == d
  {
    OryPatch.WithoutProjectNone(d);
  }

  /** A cancelled algorithm or use pick abandons the import. */
  lemma JwkPickCancelAborts(picks: seq<JwkFlag>, answers: seq<JwkFlagAnswer>, i: nat)
    requires |answers| == |picks| && i < |picks|
    requires (picks[i] == AlgFlag && answers[i].algorithm.None?) || (picks[i] == UseFlag && answers[i].intendedUse.None?)
    ensures JwkFlags(picks, answers).None?
  {
    JwkFlagsSnoc(picks, answers, i);
    JwkAbandonedStays(picks, answers, i + 1);
  }

  // ---------------------------------------------------------------------------
  // Client flags

  datatype OAuth2Flag = Keybase | PgpKey | PgpKeyUrl | NoneFlag2

  function OAuth2Label(f: OAuth2Flag): string
  {
    match f
    case Keybase => "keybase"
    case PgpKey => "pgp-key"
    case PgpKeyUrl => "pgp-key-url"
    case NoneFlag2 => "none"
  }

  /** One pass of the client-flag loop; the value prompt's answer is stored verbatim. */
  function OAuth2Step(flags: Option<Dict<string>>, f: OAuth2Flag, answer: Option<string>): Option<Dict<string>>
  {
    if flags.None? then None
    else if f == NoneFlag2 then flags
    else if answer.None? then None
    else Some(Put(flags.value, OAuth2Label(f), answer.value))
  }

  function OAuth2Flags(picks: seq<OAuth2Flag>, answers: seq<Option<string>>): Option<Dict<string>>
    requires |answers| == |picks|
  {
    if picks == [] then Some([])
    else
      var n := |picks| - 1;
      OAuth2Step(OAuth2Flags(picks[..n], answers[..n]), picks[n], answers[n])
  }

  lemma OAuth2FlagsSnoc(picks: seq<OAuth2Flag>, answers: seq<Option<string>>, i: nat)
    requires |answers| == |picks| && i < |picks|
    ensures OAuth2Flags(picks[..i + 1], answers[..i + 1]) == OAuth2Step(OAuth2Flags(picks[..i], answers[..i]), picks[i], answers[i])
  {
    TakeSnoc(picks, i);
    TakeSnoc(answers, i);
  }

  lemma {:induction false} OAuth2AbandonedStays(picks: seq<OAuth2Flag>, answers: seq<Option<string>>, i: nat)
    requires |answers| == |picks| && i <= |picks|
    requires OAuth2Flags(picks[..i], answers[..i]).None?
    ensures OAuth2Flags(picks, answers).None?
    decreases |picks| - i
  {
    if i < |picks| {
      OAuth2FlagsSnoc(picks, answers, i);
      OAuth2AbandonedStays(picks, answers, i + 1);
    } else {
      assert picks[..i] == picks && answers[..i] == answers;
    }
  }

  /** The client-flag loop. */
  method CollectOAuth2Flags(picks: seq<OAuth2Flag>, answers: seq<Option<string>>) returns (r: Option<Dict<string>>)
    requires |answers| == |picks|
    ensures r == OAuth2Flags(picks, answers)
  {
    var flagDataJson: Dict<string> := [];
    for i := 0 to |picks|
      invariant OAuth2Flags(picks[..i], answers[..i]) == Some(flagDataJson)
    {
      OAuth2FlagsSnoc(picks, answers, i);
      var flag := picks[i];
      if flag != NoneFlag2 {
        var value := answers[i];
        if value.None? {
          OAuth2AbandonedStays(picks, answers, i + 1);
          return None;
        }
        flagDataJson := Put(flagDataJson, OAuth2Label(flag), value.value);
      }
    }
    assert picks[..|picks|] == picks && answers[..|answers|] == answers;
    r := Some(flagDataJson);
  }

  lemma OAuth2LabelInjective(f: OAuth2Flag, g: OAuth2Flag)
    ensures OAuth2Label(f) == OAuth2Label(g) <==> f == g
  {
    if f != g {
      assert |OAuth2Label(f)| != |OAuth2Label(g)| || OAuth2Label(f)[0] != OAuth2Label(g)[0];
    }
  }

  /** Each answered client flag is stored verbatim under its own name. */
  lemma {:induction false} OAuth2FlagValue(picks: seq<OAuth2Flag>, answers: seq<Option<string>>, i: nat)
    requires |answers| == |picks| && i < |picks|
    requires forall p, q :: 0 <= p < q < |picks| ==> picks[p] != picks[q]
    requires picks[i] != NoneFlag2
    requires OAuth2Flags(picks, answers).Some?
    ensures answers[i].Some? && Lookup(OAuth2Flags(picks, answers).value, OAuth2Label(picks[i])) == answers[i]
    decreases |picks|
  {
    var n := |picks| - 1;
    var prev := OAuth2Flags(picks[..n], answers[..n]);
    assert OAuth2Flags(picks, answers) == OAuth2Step(prev, picks[n], answers[n]);
    if i < n {
      assert picks[..n][i] == picks[i] && answers[..n][i] == answers[i];
      OAuth2FlagValue(picks[..n], answers[..n], i);
      OAuth2LabelInjective(picks[i], picks[n]);
    }
  }

  lemma {:induction false} NoneNeverStored(picks: seq<OAuth2Flag>, answers: seq<Option<string>>)
    requires |answers| == |picks|
    requires OAuth2Flags(picks, answers).Some?
    ensures "none" !in Keys(OAuth2Flags(picks, answers).value)
    decreases |picks|
  {
    if picks != [] {
      var n := |picks| - 1;
      NoneNeverStored(picks[..n], answers[..n]);
      assert |OAuth2Label(picks[n])| != |"none"| || picks[n] == NoneFlag2;
    }
  }

  // ---------------------------------------------------------------------------
  // The commands

  datatype ImportOutcome =
    | NotRun
    | Cancelled
    | ErrorShown(message: string)
    | Imported(argv: seq<string>, effects: seq<Effect>, resolved: Option<string>)

  /** `oryImportIdentities`. */
  method OryImportIdentities(projectID: Option<string>, fileLocation: Option<seq<string>>, events: seq<ProcessEvent>)
    returns (outcome: ImportOutcome)
    ensures outcome.Cancelled? <==> projectID.None? || fileLocation.None?
    ensures !outcome.Cancelled? ==> outcome == Imported(IdentitiesArgv(projectID.value, fileLocation.value),
      AllEffects("identities", Some(""), events), Resolution(events))
  {
    var identityInputs := CommandInput(projectID, fileLocation);
    if identityInputs.None? {
      return Cancelled;
    }
    var id := identityInputs.value[0];
    var files := identityInputs.value[1..];
    var argv := ["import", "identities"] + files + ["--project", id];
    var resolved, effects := SpawnCommonErrAndClose("identities", Some(""), events);
    outcome := Imported(argv, effects, resolved);
  }

  /** `oryImportJWK`; `answers[i]` holds the algorithm and use picks shown for `flags[i]`. */
  method OryImportJwk(
    flags: Option<seq<JwkFlag>>,
    jwkSetInput: Option<string>,
    projectID: Option<string>,
    fileLocation: Option<seq<string>>,
    answers: seq<JwkFlagAnswer>,
    events: seq<ProcessEvent>)
    returns (outcome: ImportOutcome)
    requires flags.Some? ==> |answers| == |flags.value|
    ensures flags.None? ==> outcome == Cancelled
    ensures flags.Some? && jwkSetInput.None? ==> outcome == ErrorShown("Invalid jwk set id undefined")
    ensures flags.Some? && jwkSetInput.Some? && !outcome.Imported? ==> outcome == Cancelled
    ensures outcome.Imported? <==>
      flags.Some? && jwkSetInput.Some? && projectID.Some? && fileLocation.Some? && JwkFlags(flags.value, answers).Some?
    ensures outcome.Imported? ==> outcome == Imported(
      JwkArgv(jwkSetInput.value, projectID.value, fileLocation.value, OryPatch.BuilderArgs(JwkFlags(flags.value, answers).value)),
      AllEffects("jwk", Some(""), events), Resolution(events))
  {
    if flags.None? {
      return Cancelled;
    }
    if jwkSetInput.None? {
      return ErrorShown("Invalid jwk set id undefined");
    }
    var jwkInputs := CommandInput(projectID, fileLocation);
    if jwkInputs.None? {
      return Cancelled;
    }
    var flagDataJson := CollectJwkFlags(flags.value, answers);
    if flagDataJson.None? {
      return Cancelled;
    }
    var id := jwkInputs.value[0];
    var files := jwkInputs.value[1..];
    var command := OryPatch.CommandBuilder(flagDataJson.value);
    var argv := ["import", "jwk", jwkSetInput.value] + files + ["project", id] + command;
    var resolved, effects := SpawnCommonErrAndClose("jwk", Some(""), events);
    outcome := Imported(argv, effects, resolved);
  }

  /** `oryImportOAuth2Client`; its output is handled under the component name `project`. */
  method OryImportOAuth2Client(
    flags: Option<seq<OAuth2Flag>>,
    projectID: Option<string>,
    fileLocation: Option<seq<string>>,
    answers: seq<Option<string>>,
    events: seq<ProcessEvent>)
    returns (outcome: ImportOutcome)
    requires flags.Some? ==> |answers| == |flags.value|
    ensures outcome.Imported? <==>
      flags.Some? && projectID.Some? && fileLocation.Some? && OAuth2Flags(flags.value, answers).Some?
    ensures !outcome.Imported? ==> outcome == Cancelled
    ensures outcome.Imported? ==> outcome == Imported(
      OAuth2Argv(projectID.value, fileLocation.value, OryPatch.BuilderArgs(OAuth2Flags(flags.value, answers).value)),
      AllEffects("project", Some(""), events), Resolution(events))
  {
    if flags.None? {
      return Cancelled;
    }
    var oauth2ClientInputs := CommandInput(projectID, fileLocation);
    if oauth2ClientInputs.None? {
      return Cancelled;
    }
    var flagDataJson := CollectOAuth2Flags(flags.value, answers);
    if flagDataJson.None? {
      return Cancelled;
    }
    var id := oauth2ClientInputs.value[0];
    var file := oauth2ClientInputs.value[1..];
    var command := OryPatch.CommandBuilder(flagDataJson.value);
    var argv := ["import", "oauth2-client"] + file + ["project", id] + command;
    var resolved, effects := SpawnCommonErrAndClose("project", Some(""), events);
    outcome := Imported(argv, effects, resolved);
  }
}
