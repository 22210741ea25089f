/**
 * `ory introspect token`: picked options and typed values become flags, the token is
 * introspected, and the CLI's tab-separated answer is reformatted into a headline (`active`)
 * and a `key: value` detail listing.
 */
module Introspect {
  import opened Wrappers
  import opened JsText
  import opened JsDict
  import opened Helper

  /** The entries of the option pick. */
  datatype IntrospectOption = Scope | Endpoint | SkipTlsVerify | HttpHeaders | NoneOption

  function OptionLabel(o: IntrospectOption): string
  {
    match o
    case Scope => "scope"
    case Endpoint => "endpoint"
    case SkipTlsVerify => "skip-tls-verify"
    case HttpHeaders => "http-headers"
    case NoneOption => "None"
  }

  lemma OptionLabelInjective(a: IntrospectOption, b: IntrospectOption)
    ensures OptionLabel(a) == OptionLabel(b) <==> a == b
  {
    if a != b {
      assert |OptionLabel(a)| != |OptionLabel(b)|;
    }
  }

  /** A pick list as the quick pick returns it: no entry twice. */
  predicate Distinct(picks: seq<IntrospectOption>)
  {
    forall i, j :: 0 <= i < j < |picks| ==> picks[i] != picks[j]
  }

  // ---------------------------------------------------------------------------
  // Flags

  /** One pass of the option loop: `true` for skip-tls-verify, nothing for None, else the raw typed value. */
  function FlagStep(flags: Dict<string>, o: IntrospectOption, answer: Option<string>): Dict<string>
  {
    if o == SkipTlsVerify then Put(flags, OptionLabel(o), "true")
    else if o == NoneOption || answer.None? then flags
    else Put(flags, OptionLabel(o), answer.value)
  }

  /** The dictionary after the option loop; `answers[i]` is what the prompt for `picks[i]` returned. */
  function IntrospectFlags(picks: seq<IntrospectOption>, answers: seq<Option<string>>): Dict<string>
    requires |answers| == |picks|
  {
    if picks == [] then []
    else
      var n := |picks| - 1;
      FlagStep(IntrospectFlags(picks[..n], answers[..n]), picks[n], answers[n])
  }

  /** The option loop. */
  method CollectFlags(picks: seq<IntrospectOption>, answers: seq<Option<string>>) returns (flagDataJson: Dict<string>)
    requires |answers| == |picks|
    ensures flagDataJson == IntrospectFlags(picks, answers)
  {
    flagDataJson := [];
    for i := 0 to |picks|
      invariant flagDataJson == IntrospectFlags(picks[..i], answers[..i])
    {
      TakeSnoc(picks, i);
      TakeSnoc(answers, i);
      var option := picks[i];
      if option == SkipTlsVerify {
        flagDataJson := Put(flagDataJson, OptionLabel(option), "true");
      } else if option == NoneOption {
        continue;
      } else {
        var val := answers[i];
        if val.Some? {
          flagDataJson := Put(flagDataJson, OptionLabel(option), val.value);
        }
      }
    }
    assert picks[..|picks|] == picks && answers[..|answers|] == answers;
  }

  /** What the dictionary holds for a picked option. */
  function ExpectedValue(o: IntrospectOption, answer: Option<string>): Option<string>
  {
    if o == SkipTlsVerify then Some("true")
    else if o == NoneOption then None
    else answer
  }

  /** An option that was not picked has no entry. */
  lemma {:induction false} IntrospectFlagsAbsent(picks: seq<IntrospectOption>, answers: seq<Option<string>>, o: IntrospectOption)
    requires |answers| == |picks|
    requires o !in picks
    ensures Lookup(IntrospectFlags(picks, answers), OptionLabel(o)) == None
    decreases |picks|
  {
    if picks != [] {
      var n := |picks| - 1;
      assert o !in picks[..n];
      OptionLabelInjective(o, picks[n]);
      IntrospectFlagsAbsent(picks[..n], answers[..n], o);
    }
  }

  /**
   * Each picked option's entry: `true` for skip-tls-verify, none for None, and otherwise the
   * value exactly as typed (no whitespace removal), or none when its prompt was cancelled.
   */
  lemma {:induction false} IntrospectFlagsValue(picks: seq<IntrospectOption>, answers: seq<Option<string>>, i: nat)
    requires |answers| == |picks|
    requires Distinct(picks)
    requires i < |picks|
    ensures Lookup(IntrospectFlags(picks, answers), OptionLabel(picks[i])) == ExpectedValue(picks[i], answers[i])
    decreases |picks|
  {
    var n := |picks| - 1;
    OptionLabelInjective(picks[i], picks[n]);
    if i < n {
      IntrospectFlagsValue(picks[..n], answers[..n], i);
    } else {
      IntrospectFlagsAbsent(picks[..n], answers[..n], picks[i]);
    }
  }

  /** `None` is never a key, whatever was picked. */
  lemma {:induction false} NoneNeverStored(picks: seq<IntrospectOption>, answers: seq<Option<string>>)
    requires |answers| == |picks|
    ensures "None" !in Keys(IntrospectFlags(picks, answers))
    decreases |picks|
  {
    if picks != [] {
      var n := |picks| - 1;
      NoneNeverStored(picks[..n], answers[..n]);
      OptionLabelInjective(picks[n], NoneOption);
    }
  }

  /** The arguments one entry contributes: skip-tls-verify gives a bare flag and a valued one. */
  function KeyArgs(key: string, value: string): seq<string>
  {
    if key == "None" then []
    else (if key == "skip-tls-verify" then ["--skip-tls-verify"] else []) + ["--" + key + "=" + value]
  }

  function EntryArgs(entry: (string, string)): seq<string>
  {
    KeyArgs(entry.0, entry.1)
  }

  /** The arguments of a dictionary, in key order. */
  function IntrospectArgs(flags: Dict<string>): seq<string>
  {
    FlatMap(flags, EntryArgs)
  }

  /** The `for...in` loop building the argument list. */
  method BuildArgs(flagDataJson: Dict<string>) returns (stringBuilder: seq<string>)
    ensures stringBuilder == IntrospectArgs(flagDataJson)
  {
    stringBuilder := [];
    for i := 0 to |flagDataJson|
      invariant stringBuilder == IntrospectArgs(flagDataJson[..i])
    {
      TakeSnoc(flagDataJson, i);
      var key := flagDataJson[i].0;
      if key == "None" {
        continue;
      }
      if key == "skip-tls-verify" {
        stringBuilder := stringBuilder + ["--skip-tls-verify"];
      }
      stringBuilder := stringBuilder + ["--" + key + "=" + flagDataJson[i].1];
    }
    assert flagDataJson[..|flagDataJson|] == flagDataJson;
  }

  /** skip-tls-verify is passed twice: once bare and once as `--skip-tls-verify=true`. */
  lemma SkipTlsTwice()
    ensures KeyArgs(OptionLabel(SkipTlsVerify), "true") == ["--skip-tls-verify", "--skip-tls-verify=true"]
  {
    assert "--" + "skip-tls-verify" + "=" + "true" == "--skip-tls-verify=true";
  }

  /** Every other key gives exactly one `--key=value`. */
  lemma OtherKeyArgs(key: string, value: string)
    requires key != "None" && key != "skip-tls-verify"
    ensures KeyArgs(key, value) == ["--" + key + "=" + value]
  {
  }

  /** The spawned argument vector. */
  function IntrospectArgv(token: string, projectID: string, built: seq<string>): (r: seq<string>)
    ensures |r| == |built| + 4 && r[..4] == ["introspect", "token", token, "--project=" + projectID]
    ensures r[4..] == built
  {
    ["introspect", "token", token, "--project=" + projectID] + built
  }

  // ---------------------------------------------------------------------------
  // Output reformatting

  /** A line trimmed, then its first double tab turned into `: `. */
  function ReformatLine(line: string): string
  {
    ReplaceFirst(Trim(line), "\t\t", ": ")
  }

  function Reformatted(lines: seq<string>): (r: seq<string>)
    ensures |r| == |lines| && forall k :: 0 <= k < |r| ==> r[k] == ReformatLine(lines[k])
  {
    seq(|lines|, k requires 0 <= k < |lines| => ReformatLine(lines[k]))
  }

  /** A line of the detail listing: `:NULL` marks a line without a colon. */
  function Tagged(line: string): string
  {
    if !Contains(line, ":") then line + ":NULL" else line
  }

  /** Each line tagged and followed by a newline. */
  function Entries(lines: seq<string>): (r: seq<string>)
    ensures |r| == |lines| && forall k :: 0 <= k < |r| ==> r[k] == Tagged(lines[k]) + "\n"
  {
    seq(|lines|, k requires 0 <= k < |lines| => Tagged(lines[k]) + "\n")
  }

  /** The detail listing of the processed lines. */
  function Rendered(lines: seq<string>): string
  {
    Concat(Entries(lines))
  }

  /** The headline of a CLI answer: its first processed line. */
  function Active(val: string): string
  {
    ReformatLine(Split(val, '\n')[0])
  }

  /** The detail listing of a CLI answer. */
  function Details(val: string): string
  {
    Rendered(Reformatted(Split(val, '\n')))
  }

  /** The reformatting after the spawn: in-place line rewriting, then accumulation. */
  method ReformatOutput(val: string) returns (active: string, resultString: string)
    ensures active == Active(val)
    ensures resultString == Details(val)
  {
    var lines := Split(val, '\n');
    var processString := new string[|lines|](k requires 0 <= k < |lines| => lines[k]);
    assert processString[..] == lines;
    ReformatLines(processString);
    active := processString[0];
    resultString := RenderLines(processString);
  }

  /** The first loop: each line trimmed and its first double tab replaced, in place. */
  method ReformatLines(processString: array<string>)
    modifies processString
    ensures processString[..] == Reformatted(old(processString[..]))
  {
    for i := 0 to processString.Length
      invariant forall k :: 0 <= k < i ==> processString[k] == ReformatLine(old(processString[k]))
      invariant forall k :: i <= k < processString.Length ==> processString[k] == old(processString[k])
    {
      processString[i] := ReplaceFirst(Trim(processString[i]), "\t\t", ": ");
    }
  }

  /** The second loop: the detail listing of the processed lines. */
  method RenderLines(processString: array<string>) returns (resultString: string)
    ensures resultString == Rendered(processString[..])
  {
    resultString := "";
    for i := 0 to processString.Length
      invariant resultString == Rendered(processString[..i])
    {
      var line := processString[i];
      assert processString[..i + 1] == processString[..i] + [line];
      RenderedSnoc(processString[..i], line);
      if !Contains(line, ":") {
        assert line + ":NULL\n" == Tagged(line) + "\n";
        resultString := resultString + (line + ":NULL\n");
      } else {
        resultString := resultString + (line + "\n");
      }
    }
    assert processString[..processString.Length] == processString[..];
  }

  lemma RenderedSnoc(lines: seq<string>, line: string)
    ensures Rendered(lines + [line]) == Rendered(lines) + (Tagged(line) + "\n")
  {
    assert Entries(lines + [line]) == Entries(lines) + [Tagged(line) + "\n"];
    ConcatAppend(Entries(lines), Tagged(line) + "\n");
  }

  lemma RenderedCons(lines: seq<string>)
    requires lines != []
    ensures Rendered(lines) == Tagged(lines[0]) + ['\n'] + Rendered(lines[1..])
  {
    assert Entries(lines)[1..] == Entries(lines[1..]);
  }

  /** Every line tagged. */
  function TaggedAll(lines: seq<string>): (r: seq<string>)
    ensures |r| == |lines| && forall k :: 0 <= k < |r| ==> r[k] == Tagged(lines[k])
  {
    seq(|lines|, k requires 0 <= k < |lines| => Tagged(lines[k]))
  }

  lemma TaggedNoNewline(line: string)
    requires '\n' !in line
    ensures '\n' !in Tagged(line)
  {
  }

  lemma TaggedAllCons(lines: seq<string>)
    requires lines != []
    ensures TaggedAll(lines) == [Tagged(lines[0])] + TaggedAll(lines[1..])
  {
  }

  lemma {:induction false} RenderedSplit(lines: seq<string>)
    requires forall k :: 0 <= k < |lines| ==> '\n' !in lines[k]
    ensures Split(Rendered(lines), '\n') == TaggedAll(lines) + [""]
    decreases |lines|
  {
    if lines == [] {
      assert Entries(lines) == [];
    } else {
      TaggedNoNewline(lines[0]);
      RenderedCons(lines);
      RenderedSplit(lines[1..]);
      SplitCons(Tagged(lines[0]), '\n', Rendered(lines[1..]));
      TaggedAllCons(lines);
    }
  }

  /** A processed line holds no newline, because the raw line held none. */
  lemma ReformatLineNoNewline(line: string)
    requires '\n' !in line
    ensures '\n' !in ReformatLine(line)
  {
    ReplaceFirstAvoids(Trim(line), "\t\t", ": ", '\n');
  }

  /**
   * The detail listing keeps the line structure of the answer: split on newlines it gives
   * every processed line once, tagged, in order, followed by one empty piece after the final
   * newline; so there are as many newlines as there were lines.
   */
  lemma DetailsLines(val: string)
    ensures Split(Details(val), '\n') == TaggedAll(Reformatted(Split(val, '\n'))) + [""]
    ensures CountChar(Details(val), '\n') == |Split(val, '\n')|
  {
    var raw := Split(val, '\n');
    var lines := Reformatted(raw);
    SplitPiecesFree(val, '\n');
    forall k | 0 <= k < |lines| ensures '\n' !in lines[k] {
      ReformatLineNoNewline(raw[k]);
    }
    RenderedSplit(lines);
    SplitCount(Details(val), '\n');
  }

  // ---------------------------------------------------------------------------
  // The command

  datatype IntrospectOutcome =
    | Cancelled
    | Awaiting(argv: seq<string>, effects: seq<Effect>)
    | Introspected(argv: seq<string>, effects: seq<Effect>, active: string, details: string)

  /**
   * `runOryIntrospect`. The option pick, project ID, value prompts and token prompt are
   * parameters, and `events` is what the spawned CLI emits; while it has not closed, the
   * command is still awaiting its answer. Once it has, the active line is announced; the
   * announcement's "View Details" button opens `details`.
   */
  method RunOryIntrospect(
    picks: Option<seq<IntrospectOption>>,
    projectID: Option<string>,
    answers: seq<Option<string>>,
    token: Option<string>,
    events: seq<ProcessEvent>)
    returns (outcome: IntrospectOutcome)
    requires picks.Some? ==> |answers| == |picks.value|
    ensures outcome.Cancelled? <==> picks.None? || projectID.None? || token.None?
    ensures !outcome.Cancelled? ==>
      && outcome.argv == IntrospectArgv(token.value, projectID.value, IntrospectArgs(IntrospectFlags(picks.value, answers)))
    ensures outcome.Awaiting? ==> outcome.effects == AllEffects("introspect", Some(""), events)
    ensures outcome.Introspected? <==> !outcome.Cancelled? && Resolution(events).Some?
    ensures outcome.Introspected? ==>
      && outcome.active == Active(Resolution(events).value)
      && outcome.details == Details(Resolution(events).value)
      && outcome.effects == AllEffects("introspect", Some(""), events) + [ShowInfo("Ory Introspect Token: " + outcome.active)]
  {
    if picks.None? || projectID.None? {
      return Cancelled;
    }
    var flagDataJson := CollectFlags(picks.value, answers);
    if token.None? {
      return Cancelled;
    }
    var stringBuilder := BuildArgs(flagDataJson);
    var argv := ["introspect", "token", token.value, "--project=" + projectID.value] + stringBuilder;
    var val, effects := SpawnCommonErrAndClose("introspect", Some(""), events);
    if val.None? {
      return Awaiting(argv, effects);
    }
    var active, resultString := ReformatOutput(val.value);
    outcome := Introspected(argv, effects + [ShowInfo("Ory Introspect Token: " + active)], active, resultString);
  }
}
