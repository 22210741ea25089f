/**
 * The shared helpers of the extension: the output-format and upload-type picks, the
 * prompt that reads one value or a comma-separated list, and the handler that collects a
 * spawned command's output and reacts to its error stream.
 */
module Helper {
  import opened Wrappers
  import opened JsText

  // ---------------------------------------------------------------------------
  // Output format

  /** The items of the output-format quick pick. */
  datatype FormatPick = JsonFormat | YamlFormat | JsonPrettyFormat

  function FormatLabel(p: FormatPick): string
  {
    match p
    case JsonFormat => "json"
    case YamlFormat => "yaml"
    case JsonPrettyFormat => "json-pretty"
  }

  /** `format`: the `--format` value for a pick; a cancelled pick falls back to json. */
  function Format(pick: Option<FormatPick>): string
  {
    var name := if pick.Some? then FormatLabel(pick.value) else "";
    if name == "yaml" then "yaml" else if name == "json-pretty" then "json-pretty" else "json"
  }

  /** The extension a result panel is titled with: json when the format mentions json. */
  function PanelExtension(format: string): string
  {
    if Contains(format, "json") then "json" else "yaml"
  }

  /** A pick gives back its own label, a cancelled pick gives json; the panel is yaml only for yaml. */
  lemma FormatChoice(pick: Option<FormatPick>)
    ensures pick.Some? ==> Format(pick) == FormatLabel(pick.value)
    ensures pick.None? ==> Format(pick) == "json"
    ensures PanelExtension(Format(pick)) == (if pick == Some(YamlFormat) then "yaml" else "json")
  {
    assert OccursAt("json", "json", 0);
    assert OccursAt("json-pretty", "json", 0);
    assert !Contains("yaml", "json") by {
      assert "yaml"[0..4][0] != "json"[0];
      forall i: nat ensures !OccursAt("yaml", "json", i) {
      }
    }
  }

  // ---------------------------------------------------------------------------
  // Upload type

  /** The items of the upload-type quick pick. */
  datatype UploadPick = JsonUpload | YamlUpload | UrlUpload | Base64Upload

  function UploadLabel(p: UploadPick): string
  {
    match p
    case JsonUpload => "json"
    case YamlUpload => "yaml/yml"
    case UrlUpload => "url"
    case Base64Upload => "base64"
  }

  const NoUploadTypeSelected := "noUploadTypeSelected"

  /** `fileType`: cancel gives `noUploadTypeSelected`; the `yaml/yml` item comes back as `yaml`. */
  function FileType(pick: Option<UploadPick>): (r: string)
    ensures r != "yaml/yml"
    ensures r == NoUploadTypeSelected <==> pick.None?
    ensures r == "json" <==> pick == Some(JsonUpload)
    ensures r == "yaml" <==> pick == Some(YamlUpload)
    ensures pick == Some(UrlUpload) ==> r == "url"
    ensures pick == Some(Base64Upload) ==> r == "base64"
  {
    if pick.None? then NoUploadTypeSelected
    else
      var name := UploadLabel(pick.value);
      if name == "yaml/yml" then "yaml"
      else if name == "url" then "url"
      else if name == "base64" then "base64"
      else "json"
  }

  // ---------------------------------------------------------------------------
  // Reading one value or a comma-separated list

  /** The `type` of a command: no prompt, one value, or a comma-separated list. */
  datatype InputKind = EmptyInput | SingleInput | ListInput

  const InvalidInput := "Invalid input"

  /** A comma at `i` followed by a white-space character. */
  predicate CommaSpaceAt(s: string, i: nat)
  {
    i + 1 < |s| && s[i] == ',' && IsSpace(s[i + 1])
  }

  /** Index of the first comma followed by a white-space character, at or after `from`; -1 if none. */
  function CommaSpaceFrom(s: string, from: nat): (r: int)
    ensures r == -1 || (from <= r && CommaSpaceAt(s, r))
    ensures r == -1 ==> forall i :: from <= i ==> !CommaSpaceAt(s, i)
    ensures r >= 0 ==> forall i :: from <= i < r ==> !CommaSpaceAt(s, i)
    decreases |s| - from
  {
    if from + 1 >= |s| then -1
    else if CommaSpaceAt(s, from) then from
    else CommaSpaceFrom(s, from + 1)
  }

  /** Length of the run of literal `s` characters starting at index `i`. */
  function RunOfS(str: string, i: nat): (n: nat)
    requires i <= |str|
    ensures i + n <= |str|
    ensures forall k :: i <= k < i + n ==> str[k] == 's'
    ensures i + n == |str| || str[i + n] != 's'
    decreases |str| - i
  {
    if i < |str| && str[i] == 's' then 1 + RunOfS(str, i + 1) else 0
  }

  /**
   * `input.replace(RegExp('(?:,\\s)s*'), ',')`: the leftmost comma followed by one
   * white-space character, together with that character and the run of literal `s` after
   * it, becomes a lone comma. Later separators are left as they are.
   */
  function NormalizeFirstSeparator(s: string): string
  {
    var i := CommaSpaceFrom(s, 0);
    if i < 0 then s else s[..i] + [','] + s[i + 2 + RunOfS(s, i + 2)..]
  }

  /** The list a `strings` prompt yields. */
  function SplitList(s: string): seq<string>
  {
    Split(NormalizeFirstSeparator(s), ',')
  }

  /** The normalisation removes no comma and adds none. */
  lemma NormalizeKeepsCommas(s: string)
    ensures CountChar(NormalizeFirstSeparator(s), ',') == CountChar(s, ',')
  {
    var i := CommaSpaceFrom(s, 0);
    if i >= 0 {
      var j := i + 2 + RunOfS(s, i + 2);
      NormalizedAt(s, i);
      SeparatorRunCommaFree(s, i);
      CountCharSplice(s, i, j, ',');
    }
  }

  lemma NormalizedAt(s: string, i: nat)
    requires CommaSpaceFrom(s, 0) == i
    ensures NormalizeFirstSeparator(s) == s[..i] + [','] + s[i + 2 + RunOfS(s, i + 2)..]
  {
  }

  /** After the comma, the white-space character and the `s` run hold no comma. */
  lemma SeparatorRunCommaFree(s: string, i: nat)
    requires CommaSpaceAt(s, i)
    ensures forall k :: i < k < i + 2 + RunOfS(s, i + 2) ==> s[k] != ','
  {
    assert s[i + 1] != ',';
  }

  /** A list prompt yields one more piece than the input has commas. */
  lemma SplitListCount(s: string)
    ensures |SplitList(s)| == CountChar(s, ',') + 1
  {
    NormalizeKeepsCommas(s);
    SplitCount(NormalizeFirstSeparator(s), ',');
  }

  /**
   * Where the input has a comma followed by white space, the pieces are those before that
   * comma and those after the white-space character and the `s` run that follows it;
   * where it has none, the pieces are a plain split on commas.
   */
  lemma SplitListPieces(s: string)
    ensures CommaSpaceFrom(s, 0) < 0 ==> SplitList(s) == Split(s, ',')
    ensures var i := CommaSpaceFrom(s, 0);
      i >= 0 ==> SplitList(s) == Split(s[..i], ',') + Split(s[i + 2 + RunOfS(s, i + 2)..], ',')
  {
    var i := CommaSpaceFrom(s, 0);
    if i < 0 {
      assert NormalizeFirstSeparator(s) == s;
      assert SplitList(s) == Split(s, ',');
    } else {
      var j := i + 2 + RunOfS(s, i + 2);
      var before, after := s[..i], s[j..];
      assert NormalizeFirstSeparator(s) == before + [','] + after;
      SplitAppend(before, ',', after);
      assert SplitList(s) == Split(before, ',') + Split(after, ',');
    }
  }

  /** `commandInput`: `empty` never prompts; a cancelled prompt throws `Invalid input`. */
  function CommandInput(kind: InputKind, answer: Option<string>): (r: Result<seq<string>>)
    ensures kind == EmptyInput ==> r == Ok([""])
    ensures kind != EmptyInput && answer.None? ==> r == Err(InvalidInput)
    ensures kind == SingleInput && answer.Some? ==> r == Ok([answer.value])
    ensures kind == ListInput && answer.Some? ==>
      r.Ok? && r.value == SplitList(answer.value) && |r.value| == CountChar(answer.value, ',') + 1
  {
    var input := if kind == EmptyInput then Some("") else answer;
    match input
    case None => Err(InvalidInput)
    case Some(s) =>
      if kind == ListInput then SplitListCount(s); Ok(SplitList(s)) else Ok([s])
  }

  // ---------------------------------------------------------------------------
  // Output of a spawned command

  const SessionExpired := "Your session has expired or has otherwise become invalid"
  const NoProjectError := "Error: no project was specified"
  const NoProjectMessage := "No project id was specified"
  const GenericMessage := "Oops \U{1FAE2} something went wrong! Please check in Output -> Ory"

  /**
   * What the editor is asked to do in reaction to the command's output. The two offers are
   * error boxes whose button runs the sign-in command: "Re-authenticate" and "Retry".
   */
  datatype Effect =
    | ShowError(message: string)
    | OfferReauthentication(message: string)
    | OfferRetry(message: string)
    | KillProcess
    | OpenPanel(viewType: string, title: string, content: string)
    | ShowInfo(message: string)

  /** One event of a spawned process, in arrival order. */
  datatype ProcessEvent = StdoutData(chunk: string) | StderrData(chunk: string) | Closed(code: int)

  /**
   * Reaction to one stderr chunk: an expired session is offered re-authentication and the
   * process is killed; independently, exactly one error message is shown, the specific one
   * when no project was specified and `generic` otherwise.
   */
  function StderrEffects(chunk: string, generic: string): seq<Effect>
  {
    (if Contains(chunk, SessionExpired) then [OfferReauthentication(chunk), KillProcess] else [])
    + [ShowError(if Contains(chunk, NoProjectError) then NoProjectMessage else generic)]
  }

  /** The messages of the error boxes among `effects`, in order. */
  function ErrorsShown(effects: seq<Effect>): seq<string>
  {
    if effects == [] then []
    else (if effects[0].ShowError? then [effects[0].message] else []) + ErrorsShown(effects[1..])
  }

  /** Each stderr chunk shows exactly one error box; an expired session also kills the process. */
  lemma StderrClassification(chunk: string, generic: string)
    ensures ErrorsShown(StderrEffects(chunk, generic)) ==
      [if Contains(chunk, NoProjectError) then NoProjectMessage else generic]
    ensures KillProcess in StderrEffects(chunk, generic) <==> Contains(chunk, SessionExpired)
    ensures OfferReauthentication(chunk) in StderrEffects(chunk, generic) <==> Contains(chunk, SessionExpired)
  {
    var r := StderrEffects(chunk, generic);
    if Contains(chunk, SessionExpired) {
      assert r[1..] == [KillProcess] + r[2..];
      assert r[2..] == [ShowError(r[2].message)];
      assert ErrorsShown(r[2..][1..]) == [];
    } else {
      assert ErrorsShown(r[1..]) == [];
    }
  }

  /** Reaction to one stdout chunk: a result panel, only when a non-empty format was given. */
  function StdoutEffects(component: string, format: Option<string>, chunk: string): seq<Effect>
  {
    if format.Some? && format.value != "" then
      [OpenPanel(component + "Panel", component + "-" + PanelExtension(format.value), chunk)]
    else []
  }

  function EventEffects(component: string, format: Option<string>, e: ProcessEvent): seq<Effect>
  {
    match e
    case StdoutData(c) => StdoutEffects(component, format, c)
    case StderrData(c) => StderrEffects(c, GenericMessage)
    case Closed(_) => []
  }

  /** The effects of a run of events, in order. */
  function AllEffects(component: string, format: Option<string>, events: seq<ProcessEvent>): seq<Effect>
  {
    if events == [] then []
    else AllEffects(component, format, events[..|events| - 1])
         + EventEffects(component, format, events[|events| - 1])
  }

  /** The effects of a run of events, each handled by `react`, in arrival order. */
  function Reactions(events: seq<ProcessEvent>, react: ProcessEvent -> seq<Effect>): seq<Effect>
  {
    if events == [] then [] else Reactions(events[..|events| - 1], react) + react(events[|events| - 1])
  }

  /** An effect occurs in a run exactly when some event's handler produced it. */
  lemma {:induction false} ReactionsMember(events: seq<ProcessEvent>, react: ProcessEvent -> seq<Effect>, x: Effect)
    ensures x in Reactions(events, react) <==> exists k :: 0 <= k < |events| && x in react(events[k])
    decreases |events|
  {
    if events != [] {
      var n := |events| - 1;
      var earlier := Reactions(events[..n], react);
      ReactionsMember(events[..n], react, x);
      assert Reactions(events, react) == earlier + react(events[n]);
      if x in earlier {
        var k :| 0 <= k < n && x in react(events[..n][k]);
        assert events[..n][k] == events[k];
      } else if x in react(events[n]) {
        assert 0 <= n < |events| && x in react(events[n]);
      }
      if exists k :: 0 <= k < |events| && x in react(events[k]) {
        var k :| 0 <= k < |events| && x in react(events[k]);
        if k < n {
          assert events[..n][k] == events[k];
          assert x in earlier;
        }
      }
    }
  }

  /** The stdout chunks of a run of events, concatenated in arrival order. */
  function StdoutText(events: seq<ProcessEvent>): string
  {
    if events == [] then ""
    else StdoutText(events[..|events| - 1])
         + (match events[|events| - 1] case StdoutData(c) => c case _ => "")
  }

  /** The value the returned promise settles to: the trimmed stdout at the first close. */
  function Resolution(events: seq<ProcessEvent>): Option<string>
  {
    if events == [] then None
    else
      var earlier := Resolution(events[..|events| - 1]);
      if earlier.Some? then earlier
      else if events[|events| - 1].Closed? then Some(Trim(StdoutText(events[..|events| - 1])))
      else None
  }

  /** One more event: its stdout text, its effects and, at the first close, the resolution. */
  lemma EventsSnoc(component: string, format: Option<string>, events: seq<ProcessEvent>, i: nat)
    requires i < |events|
    ensures StdoutText(events[..i + 1]) ==
      StdoutText(events[..i]) + (match events[i] case StdoutData(c) => c case _ => "")
    ensures AllEffects(component, format, events[..i + 1]) ==
      AllEffects(component, format, events[..i]) + EventEffects(component, format, events[i])
    ensures Resolution(events[..i + 1]) ==
      if Resolution(events[..i]).Some? then Resolution(events[..i])
      else if events[i].Closed? then Some(Trim(StdoutText(events[..i])))
      else None
  {
    TakeSnoc(events, i);
  }

  /**
   * `spawnCommonErrAndClose`: `cmdOutput` accumulates the stdout chunks; each event adds its
   * effects; the first close resolves the promise with the trimmed output.
   */
  method SpawnCommonErrAndClose(component: string, format: Option<string>, events: seq<ProcessEvent>)
    returns (resolved: Option<string>, effects: seq<Effect>)
    ensures resolved == Resolution(events)
    ensures effects == AllEffects(component, format, events)
  {
    var cmdOutput := "";
    resolved := None;
    effects := [];
    for i := 0 to |events|
      invariant cmdOutput == StdoutText(events[..i])
      invariant resolved == Resolution(events[..i])
      invariant effects == AllEffects(component, format, events[..i])
    {
      EventsSnoc(component, format, events, i);
      match events[i]
      case StdoutData(c) =>
        effects := effects + StdoutEffects(component, format, c);
        cmdOutput := cmdOutput + c;
      case StderrData(c) =>
        effects := effects + StderrEffects(c, GenericMessage);
      case Closed(_) =>
        if resolved.None? {
          resolved := Some(Trim(cmdOutput));
        }
    }
    assert events[..|events|] == events;
  }

  /** The promise settles at the first close, to the stdout received before it, trimmed. */
  lemma {:induction false} ResolvedAtFirstClose(events: seq<ProcessEvent>, k: nat)
    requires k < |events| && events[k].Closed?
    requires forall j :: 0 <= j < k ==> !events[j].Closed?
    ensures Resolution(events) == Some(Trim(StdoutText(events[..k])))
    decreases |events|
  {
    if k == |events| - 1 {
      NoCloseNoResolution(events[..k]);
    } else {
      var prefix := events[..|events| - 1];
      assert prefix[..k] == events[..k];
      ResolvedAtFirstClose(prefix, k);
    }
  }

  /** Without a close the promise never settles. */
  lemma {:induction false} NoCloseNoResolution(events: seq<ProcessEvent>)
    requires forall j :: 0 <= j < |events| ==> !events[j].Closed?
    ensures Resolution(events) == None
    decreases |events|
  {
    if events != [] {
      NoCloseNoResolution(events[..|events| - 1]);
    }
  }

  /** The accumulated stdout of a run of stdout chunks is their concatenation. */
  lemma {:induction false} StdoutOfChunks(chunks: seq<string>)
    ensures StdoutText(seq(|chunks|, i requires 0 <= i < |chunks| => StdoutData(chunks[i]))) == Concat(chunks)
    decreases |chunks|
  {
    if chunks != [] {
      var n := |chunks| - 1;
      var evs := seq(|chunks|, i requires 0 <= i < |chunks| => StdoutData(chunks[i]));
      assert evs[..n] == seq(n, i requires 0 <= i < n => StdoutData(chunks[..n][i]));
      StdoutOfChunks(chunks[..n]);
      ConcatAppend(chunks[..n], chunks[n]);
      assert chunks[..n] + [chunks[n]] == chunks;
    }
  }

  /** Without a format (or with an empty one) no result panel is ever opened. */
  lemma {:induction false} NoPanelWithoutFormat(component: string, format: Option<string>, events: seq<ProcessEvent>)
    requires format.None? || format.value == ""
    ensures forall e :: e in AllEffects(component, format, events) ==> !e.OpenPanel?
    decreases |events|
  {
    if events != [] {
      NoPanelWithoutFormat(component, format, events[..|events| - 1]);
    }
  }
}
