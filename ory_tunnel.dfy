/**
 * `ory tunnel`: the options the user picks and the values typed for them become a flag
 * dictionary, the dictionary becomes the argument vector of the spawned tunnel, and the
 * started process is recorded in the running-tunnel view.
 */
module OryTunnel {
  import opened Wrappers
  import opened JsText
  import opened JsDict
  import opened ListTunnelProcess

  /** The entries of the option pick. */
  datatype TunnelOption =
    | AllowedCorsOrigins | CookieDomain | Debug | DefaultRedirectUrl | Dev | Port | ProjectOption | NoneOption

  function OptionLabel(o: TunnelOption): string
  {
    match o
    case AllowedCorsOrigins => "allowed-cors-origins"
    case CookieDomain => "cookie-domain"
    case Debug => "debug"
    case DefaultRedirectUrl => "default-redirect-url"
    case Dev => "dev"
    case Port => "port"
    case ProjectOption => "project"
    case NoneOption => "None"
  }

  /** Options that become a flag with a typed value. */
  predicate Prompted(o: TunnelOption)
  {
    o in {AllowedCorsOrigins, CookieDomain, DefaultRedirectUrl, Port}
  }

  /** Options that become a bare flag. */
  predicate Switch(o: TunnelOption)
  {
    o == Dev || o == Debug
  }

  /** Labels tell options apart, and none of them is the application-URL key. */
  lemma OptionLabelInjective(a: TunnelOption, b: TunnelOption)
    ensures OptionLabel(a) == OptionLabel(b) <==> a == b
    ensures OptionLabel(a) != "application-urls"
  {
    if a != b {
      assert OptionLabel(a)[..2] != OptionLabel(b)[..2] || OptionLabel(a)[2..] != OptionLabel(b)[2..];
    }
  }

  /** A pick list as the quick pick returns it: no entry twice. */
  predicate Distinct(picks: seq<TunnelOption>)
  {
    forall i, j :: 0 <= i < j < |picks| ==> picks[i] != picks[j]
  }

  // ---------------------------------------------------------------------------
  // The flag dictionary

  /** One pass of the option loop: skip, store `true`, or store the typed value with its whitespace removed. */
  function FlagStep(flags: Dict<string>, o: TunnelOption, answer: Option<string>): Dict<string>
  {
    if o == NoneOption || o == ProjectOption then flags
    else if Switch(o) then Put(flags, OptionLabel(o), "true")
    else if answer.None? then flags
    else Put(flags, OptionLabel(o), RemoveSpaces(answer.value))
  }

  /**
   * The dictionary after the option loop: the application URLs first, then the picks in
   * order; `answers[i]` is what the value prompt for `picks[i]` returned, when it is shown.
   */
  function TunnelFlags(urls: string, picks: seq<TunnelOption>, answers: seq<Option<string>>): Dict<string>
    requires |answers| == |picks|
  {
    if picks == [] then Put([], "application-urls", RemoveSpaces(urls))
    else
      var n := |picks| - 1;
      FlagStep(TunnelFlags(urls, picks[..n], answers[..n]), picks[n], answers[n])
  }

  /** The option loop over the picked entries. */
  method CollectFlags(urls: string, picks: seq<TunnelOption>, answers: seq<Option<string>>)
    returns (flagDataJson: Dict<string>)
    requires |answers| == |picks|
    ensures flagDataJson == TunnelFlags(urls, picks, answers)
  {
    flagDataJson := Put([], "application-urls", RemoveSpaces(urls));
    for i := 0 to |picks|
      invariant flagDataJson == TunnelFlags(urls, picks[..i], answers[..i])
    {
      TakeSnoc(picks, i);
      TakeSnoc(answers, i);
      var option := picks[i];
      if option == NoneOption || option == ProjectOption {
        continue;
      } else if option == Dev || option == Debug {
        flagDataJson := Put(flagDataJson, OptionLabel(option), "true");
      } else {
        var val := answers[i];
        if val.Some? {
          flagDataJson := Put(flagDataJson, OptionLabel(option), RemoveSpaces(val.value));
        }
      }
    }
    assert picks[..|picks|] == picks && answers[..|answers|] == answers;
  }

  /** The label one pick stores: a switch always, a prompted option when its prompt was answered. */
  function KeptLabel(o: TunnelOption, answer: Option<string>): seq<string>
  {
    if Switch(o) || (Prompted(o) && answer.Some?) then [OptionLabel(o)] else []
  }

  /** The labels that reach the dictionary, in pick order. */
  function KeptLabels(picks: seq<TunnelOption>, answers: seq<Option<string>>): seq<string>
    requires |answers| == |picks|
  {
    if picks == [] then []
    else
      var n := |picks| - 1;
      KeptLabels(picks[..n], answers[..n]) + KeptLabel(picks[n], answers[n])
  }

  lemma {:induction false} KeptLabelsFromPicks(picks: seq<TunnelOption>, answers: seq<Option<string>>, o: TunnelOption)
    requires |answers| == |picks|
    requires o !in picks
    ensures OptionLabel(o) !in KeptLabels(picks, answers)
    decreases |picks|
  {
    if picks != [] {
      var n := |picks| - 1;
      assert o !in picks[..n];
      KeptLabelsFromPicks(picks[..n], answers[..n], o);
      OptionLabelInjective(o, picks[n]);
    }
  }

  /**
   * The dictionary's keys are `application-urls` followed by the label of every picked
   * switch and of every picked valued option whose prompt was answered, in pick order:
   * `None` and `project` never become keys, and a cancelled prompt drops only its option.
   */
  lemma {:induction false} TunnelFlagsKeys(urls: string, picks: seq<TunnelOption>, answers: seq<Option<string>>)
    requires |answers| == |picks|
    requires Distinct(picks)
    ensures Keys(TunnelFlags(urls, picks, answers)) == ["application-urls"] + KeptLabels(picks, answers)
    decreases |picks|
  {
    if picks != [] {
      var n := |picks| - 1;
      var o := picks[n];
      DistinctLast(picks);
      TunnelFlagsKeys(urls, picks[..n], answers[..n]);
      KeptLabelsFromPicks(picks[..n], answers[..n], o);
      OptionLabelInjective(o, o);
      FlagStepKeys(TunnelFlags(urls, picks[..n], answers[..n]), o, answers[n]);
      AppendAssoc(["application-urls"], KeptLabels(picks[..n], answers[..n]), KeptLabel(o, answers[n]));
    }
  }

  /** Dropping the last pick keeps the list distinct, and the last pick is not among the others. */
  lemma DistinctLast(picks: seq<TunnelOption>)
    requires Distinct(picks) && picks != []
    ensures Distinct(picks[..|picks| - 1]) && picks[|picks| - 1] !in picks[..|picks| - 1]
  {
  }

  /** One pass of the loop adds the option's label last exactly when it stores a value. */
  lemma FlagStepKeys(d: Dict<string>, o: TunnelOption, answer: Option<string>)
    requires OptionLabel(o) !in Keys(d)
    ensures Keys(FlagStep(d, o, answer)) == Keys(d) + KeptLabel(o, answer)
  {
  }

  /** What the dictionary holds for a picked option: `true` for a switch, else the typed value without whitespace. */
  function ExpectedValue(o: TunnelOption, answer: Option<string>): Option<string>
  {
    if Switch(o) then Some("true")
    else if Prompted(o) && answer.Some? then Some(RemoveSpaces(answer.value))
    else None
  }

  /** The value stored for each option: absent unless picked, and then the expected value. */
  lemma {:induction false} TunnelFlagsValue(urls: string, picks: seq<TunnelOption>, answers: seq<Option<string>>, i: nat)
    requires |answers| == |picks|
    requires Distinct(picks)
    requires i < |picks|
    ensures Lookup(TunnelFlags(urls, picks, answers), OptionLabel(picks[i])) == ExpectedValue(picks[i], answers[i])
    decreases |picks|
  {
    var n := |picks| - 1;
    DistinctLast(picks);
    if i < n {
      var o := picks[i];
      var d := TunnelFlags(urls, picks[..n], answers[..n]);
      assert picks[..n][i] == o && answers[..n][i] == answers[i];
      TunnelFlagsValue(urls, picks[..n], answers[..n], i);
      OptionLabelInjective(o, picks[n]);
      FlagStepOther(d, picks[n], answers[n], OptionLabel(o));
      assert TunnelFlags(urls, picks, answers) == FlagStep(d, picks[n], answers[n]);
    } else {
      TunnelFlagsLast(urls, picks, answers);
    }
  }

  /** The last pick's entry holds its expected value. */
  lemma TunnelFlagsLast(urls: string, picks: seq<TunnelOption>, answers: seq<Option<string>>)
    requires |answers| == |picks| && picks != []
    requires picks[|picks| - 1] !in picks[..|picks| - 1]
    ensures var n := |picks| - 1;
      Lookup(TunnelFlags(urls, picks, answers), OptionLabel(picks[n])) == ExpectedValue(picks[n], answers[n])
  {
    var n := |picks| - 1;
    var d := TunnelFlags(urls, picks[..n], answers[..n]);
    TunnelFlagsAbsent(urls, picks[..n], answers[..n], picks[n]);
    FlagStepOwn(d, picks[n], answers[n]);
    assert TunnelFlags(urls, picks, answers) == FlagStep(d, picks[n], answers[n]);
  }

  /** One pass of the loop leaves the other keys' values alone. */
  lemma FlagStepOther(d: Dict<string>, o: TunnelOption, answer: Option<string>, key: string)
    requires key != OptionLabel(o)
    ensures Lookup(FlagStep(d, o, answer), key) == Lookup(d, key)
  {
  }

  /** One pass of the loop stores the expected value under the option's label, if there is one. */
  lemma FlagStepOwn(d: Dict<string>, o: TunnelOption, answer: Option<string>)
    ensures Lookup(FlagStep(d, o, answer), OptionLabel(o)) ==
      if ExpectedValue(o, answer).Some? then ExpectedValue(o, answer) else Lookup(d, OptionLabel(o))
  {
  }

  /** An option that was not picked has no entry. */
  lemma {:induction false} TunnelFlagsAbsent(urls: string, picks: seq<TunnelOption>, answers: seq<Option<string>>, o: TunnelOption)
    requires |answers| == |picks|
    requires o !in picks
    ensures Lookup(TunnelFlags(urls, picks, answers), OptionLabel(o)) == None
    decreases |picks|
  {
    OptionLabelInjective(o, o);
    if picks != [] {
      var n := |picks| - 1;
      assert o !in picks[..n];
      OptionLabelInjective(o, picks[n]);
      TunnelFlagsAbsent(urls, picks[..n], answers[..n], o);
    }
  }

  /** The application URLs are always stored, with every whitespace character removed. */
  lemma {:induction false} TunnelFlagsUrls(urls: string, picks: seq<TunnelOption>, answers: seq<Option<string>>)
    requires |answers| == |picks|
    ensures Lookup(TunnelFlags(urls, picks, answers), "application-urls") == Some(RemoveSpaces(urls))
    ensures TunnelFlags(urls, picks, answers)[0] == ("application-urls", RemoveSpaces(urls))
    decreases |picks|
  {
    if picks != [] {
      var n := |picks| - 1;
      TunnelFlagsUrls(urls, picks[..n], answers[..n]);
      OptionLabelInjective(picks[n], picks[n]);
      PutKeepsHead(TunnelFlags(urls, picks[..n], answers[..n]), picks[n], answers[n]);
    }
  }

  lemma PutKeepsHead(flags: Dict<string>, o: TunnelOption, answer: Option<string>)
    requires flags != [] && flags[0].0 == "application-urls"
    ensures FlagStep(flags, o, answer) != [] && FlagStep(flags, o, answer)[0] == flags[0]
  {
    OptionLabelInjective(o, o);
  }

  // ---------------------------------------------------------------------------
  // The argument vector

  /** `processCommaSeparatedToArray`: nothing for `undefined`, else the comma-separated pieces. */
  function ProcessCommaSeparated(input: Option<string>): (r: seq<string>)
    ensures input.None? ==> r == []
    ensures input.Some? ==> |r| == CountChar(input.value, ',') + 1 && Join(r, ",") == input.value
    ensures forall k :: 0 <= k < |r| ==> ',' !in r[k]
  {
    if input.None? then []
    else
      SplitCount(input.value, ',');
      JoinSplit(input.value, ',');
      SplitPiecesFree(input.value, ',');
      Split(input.value, ',')
  }

  /** Each piece behind a fixed prefix. */
  function Prefixed(prefix: string, pieces: seq<string>): (r: seq<string>)
    ensures |r| == |pieces| && forall k :: 0 <= k < |r| ==> r[k] == prefix + pieces[k]
  {
    seq(|pieces|, k requires 0 <= k < |pieces| => prefix + pieces[k])
  }

  /** The arguments one dictionary entry contributes. */
  function KeyArgs(key: string, value: string): seq<string>
  {
    if key == "None" then []
    else if key == "dev" || key == "debug" then ["--" + key]
    else if key == "application-urls" then ProcessCommaSeparated(Some(value))
    else if key == "allowed-cors-origins" then Prefixed("--" + key + "=", ProcessCommaSeparated(Some(value)))
    else ["--" + key + "=" + value]
  }

  /** The arguments one entry contributes. */
  function EntryArgs(entry: (string, string)): seq<string>
  {
    KeyArgs(entry.0, entry.1)
  }

  /** The arguments of a dictionary: each entry's arguments, in key order. */
  function TunnelArgs(flags: Dict<string>): seq<string>
  {
    FlatMap(flags, EntryArgs)
  }

  /** The `for...in` loop building the argument list. */
  method BuildArgs(flagDataJson: Dict<string>) returns (stringBuilder: seq<string>)
    ensures stringBuilder == TunnelArgs(flagDataJson)
  {
    stringBuilder := [];
    for i := 0 to |flagDataJson|
      invariant stringBuilder == TunnelArgs(flagDataJson[..i])
    {
      TakeSnoc(flagDataJson, i);
      var key := flagDataJson[i].0;
      var value := flagDataJson[i].1;
      var pushed := PushKey(key, value);
      stringBuilder := stringBuilder + pushed;
    }
    assert flagDataJson[..|flagDataJson|] == flagDataJson;
  }

  /** The body of the `for...in` loop for one key: what it pushes. */
  method PushKey(key: string, value: string) returns (pushed: seq<string>)
    ensures pushed == KeyArgs(key, value)
  {
    pushed := [];
    if key == "None" {
      return;
    }
    if key == "dev" || key == "debug" {
      pushed := ["--" + key];
      return;
    }
    if key == "application-urls" {
      var urls := ProcessCommaSeparated(Some(value));
      for j := 0 to |urls|
        invariant pushed == urls[..j]
      {
        pushed := pushed + [urls[j]];
      }
      assert urls[..|urls|] == urls;
      return;
    }
    if key == "allowed-cors-origins" {
      var urls := ProcessCommaSeparated(Some(value));
      for j := 0 to |urls|
        invariant pushed == Prefixed("--" + key + "=", urls[..j])
      {
        pushed := pushed + ["--" + key + "=" + urls[j]];
      }
      assert urls[..|urls|] == urls;
      return;
    }
    pushed := ["--" + key + "=" + value];
  }

  /** Switches become bare flags whatever their stored value. */
  lemma SwitchArgs(o: TunnelOption, value: string)
    requires Switch(o)
    ensures KeyArgs(OptionLabel(o), value) == ["--" + OptionLabel(o)]
  {
  }

  /** Allowed CORS origins become one `--allowed-cors-origins=<origin>` per comma piece. */
  lemma CorsArgs(value: string)
    ensures KeyArgs("allowed-cors-origins", value) == Prefixed("--allowed-cors-origins=", Split(value, ','))
    ensures |KeyArgs("allowed-cors-origins", value)| == CountChar(value, ',') + 1
  {
    var key := "allowed-cors-origins";
    assert |key| == 20;
    assert key != "None" && key != "dev" && key != "debug" && key != "application-urls";
    assert "--" + key + "=" == "--allowed-cors-origins=";
    var pieces := ProcessCommaSeparated(Some(value));
    assert KeyArgs(key, value) == Prefixed("--allowed-cors-origins=", pieces);
  }

  /** Other valued options become one `--key=value`. */
  lemma ValuedArgs(o: TunnelOption, value: string)
    requires o in {CookieDomain, DefaultRedirectUrl, Port}
    ensures KeyArgs(OptionLabel(o), value) == ["--" + OptionLabel(o) + "=" + value]
  {
  }

  /**
   * The application URLs, split on commas, come first, ahead of every flag, because their
   * key is inserted before the option loop runs.
   */
  lemma UrlsComeFirst(urls: string, picks: seq<TunnelOption>, answers: seq<Option<string>>)
    requires |answers| == |picks|
    ensures var flags := TunnelFlags(urls, picks, answers);
      flags != [] && TunnelArgs(flags) == Split(RemoveSpaces(urls), ',') + TunnelArgs(flags[1..])
  {
    var flags := TunnelFlags(urls, picks, answers);
    TunnelFlagsUrls(urls, picks, answers);
    var head := flags[0];
    assert flags == [head] + flags[1..];
    FlatMapAppend([head], flags[1..], EntryArgs);
    FlatMapSingle(head, EntryArgs);
    assert EntryArgs(head) == ProcessCommaSeparated(Some(RemoveSpaces(urls)));
  }

  /** The spawned argument vector. */
  function TunnelArgv(projectID: string, built: seq<string>): (r: seq<string>)
    ensures |r| == |built| + 2 && r[..2] == ["tunnel", "--project=" + projectID] && r[2..] == built
  {
    ["tunnel", "--project=" + projectID] + built
  }

  // ---------------------------------------------------------------------------
  // The process record

  const Characters: string := "ABCDEFGHIJKLMNOPQRSTUVWXYZabcdefghijklmnopqrstuvwxyz0123456789"

  /** A draw of `Math.random`: a number in [0, 1). */
  predicate UnitDraw(d: real)
  {
    0.0 <= d < 1.0
  }

  /** The character a draw selects. */
  function CharFor(d: real): (c: char)
    requires UnitDraw(d)
    ensures c in Characters
  {
    var i := (d * (|Characters| as real)).Floor;
    Characters[i]
  }

  /** The identifier spelled by a sequence of draws, one character each. */
  function IdFromDraws(draws: seq<real>): (r: string)
    requires forall k :: 0 <= k < |draws| ==> UnitDraw(draws[k])
  {
    if draws == [] then [] else IdFromDraws(draws[..|draws| - 1]) + [CharFor(draws[|draws| - 1])]
  }

  /** An identifier from draws has one alphanumeric character per draw. */
  lemma {:induction false} IdFromDrawsShape(draws: seq<real>)
    requires forall k :: 0 <= k < |draws| ==> UnitDraw(draws[k])
    ensures |IdFromDraws(draws)| == |draws|
    ensures forall k :: 0 <= k < |draws| ==> IdFromDraws(draws)[k] in Characters
    decreases |draws|
  {
    if draws != [] {
      IdFromDrawsShape(draws[..|draws| - 1]);
    }
  }

  /** `makeId`: one character of the 62-character alphabet per draw, `length` times. */
  method MakeId(length: nat, draws: seq<real>) returns (result: string)
    requires |draws| >= length
    requires forall k :: 0 <= k < |draws| ==> UnitDraw(draws[k])
    ensures result == IdFromDraws(draws[..length])
    ensures |result| == length && forall k :: 0 <= k < length ==> result[k] in Characters
  {
    result := "";
    var counter := 0;
    while counter < length
      invariant counter <= length
      invariant result == IdFromDraws(draws[..counter])
    {
      assert draws[..counter + 1][..counter] == draws[..counter];
      result := result + [CharFor(draws[counter])];
      counter := counter + 1;
    }
    IdFromDrawsShape(draws[..length]);
  }

  /** How one run of the command ends. */
  datatype TunnelOutcome =
    | Cancelled
    | Warned(message: string)
    | Started(argv: seq<string>, record: RunningProcess)

  /**
   * `runOryTunnel`. The prompts are parameters: the option pick, the name, the project ID,
   * the application URLs and, per pick, its value prompt. `pid` is the spawned process's pid
   * (absent when spawning failed), `process` its handle, and `draws` the random numbers
   * `makeId` would use.
   */
  method RunOryTunnel(
    listRunningProcesses: ListRunningProcessProvider,
    picks: Option<seq<TunnelOption>>,
    name: Option<string>,
    projectID: Option<string>,
    applicationURLs: Option<string>,
    answers: seq<Option<string>>,
    pid: Option<nat>,
    process: ProcessHandle,
    draws: seq<real>)
    returns (outcome: TunnelOutcome)
    requires picks.Some? ==> |answers| == |picks.value|
    requires |draws| >= 10 && forall k :: 0 <= k < |draws| ==> UnitDraw(draws[k])
    modifies listRunningProcesses
    ensures picks.None? ==> outcome == Cancelled
    ensures picks.Some? && name.None? ==> outcome == Warned("Name is required")
    ensures picks.Some? && name.Some? && (projectID.None? || applicationURLs.None?) ==> outcome == Cancelled
    ensures outcome.Started? <==> picks.Some? && name.Some? && projectID.Some? && applicationURLs.Some?
    ensures outcome.Started? ==>
      && outcome.argv == TunnelArgv(projectID.value, TunnelArgs(TunnelFlags(applicationURLs.value, picks.value, answers)))
      && outcome.record == RunningProcess(
           if pid.Some? then DecimalString(pid.value) else IdFromDraws(draws[..10]),
           "tunnel", Running, process, name.value)
    ensures listRunningProcesses.topLevelItems ==
      old(listRunningProcesses.topLevelItems) + (if outcome.Started? then [TreeItemFor(outcome.record)] else [])
    ensures listRunningProcesses.killed == old(listRunningProcesses.killed)
  {
    if picks.None? {
      return Cancelled;
    }
    if name.None? {
      return Warned("Name is required");
    }
    if projectID.None? {
      return Cancelled;
    }
    if applicationURLs.None? {
      return Cancelled;
    }
    var flagDataJson := CollectFlags(applicationURLs.value, picks.value, answers);
    var stringBuilder := BuildArgs(flagDataJson);
    var argv := ["tunnel", "--project=" + projectID.value] + stringBuilder;
    var id: string;
    if pid.None? {
      id := MakeId(10, draws);
    } else {
      id := DecimalString(pid.value);
    }
    var tunnelProcess := RunningProcess(id, "tunnel", Running, process, name.value);
    listRunningProcesses.Add(tunnelProcess);
    outcome := Started(argv, tunnelProcess);
  }

  /** A started tunnel's id is the pid in decimal, or ten characters of the alphabet. */
  lemma StartedRecordId(pid: Option<nat>, draws: seq<real>)
    requires |draws| >= 10 && forall k :: 0 <= k < |draws| ==> UnitDraw(draws[k])
    ensures var id := if pid.Some? then DecimalString(pid.value) else IdFromDraws(draws[..10]);
      && |id| >= 1
      && (pid.None? ==> |id| == 10 && forall k :: 0 <= k < 10 ==> id[k] in Characters)
  {
    IdFromDrawsShape(draws[..10]);
  }
}
