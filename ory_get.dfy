/**
 * `ory get <kind>`: the ID prompt, the format pick, the argument vector, and the panel and
 * messages each output chunk produces.
 */
module OryGet {
  import opened Wrappers
  import opened JsText
  import opened Helper

  datatype GetKind = Identity | IdentityConfig | Jwk | OAuth2Client | OAuth2Config | PermissionConfig | Project

  function KindLabel(k: GetKind): string
  {
    match k
    case Identity => "identity"
    case IdentityConfig => "identity-config"
    case Jwk => "jwk"
    case OAuth2Client => "oauth2-client"
    case OAuth2Config => "oauth2-config"
    case PermissionConfig => "permission-config"
    case Project => "project"
  }

  /** The kinds whose prompt takes a comma-separated list (`type: 'strings'`). */
  predicate TakesList(k: GetKind)
  {
    k == Identity || k == Jwk || k == OAuth2Client
  }

  /** The web-view type of the result panel. */
  function ViewType(k: GetKind): string
  {
    match k
    case Identity => "identityPanel"
    case IdentityConfig => "identityConfigPanel"
    case Jwk => "jwkPanel"
    case OAuth2Client => "oauth2ClientPanel"
    case OAuth2Config => "oauth2ConfigPanel"
    case PermissionConfig => "permissionConfigPanel"
    case Project => "projectPanel"
  }

  /** The message shown for each output chunk. */
  function SuccessMessage(k: GetKind): string
  {
    if k == Jwk then "Got the JWK successfully" else "Got the " + KindLabel(k) + " successfully"
  }

  const GetGenericMessage := "Opps \U{1FAE2} something went wrong! Please check in Output -> Ory"

  /**
   * The local `commandInput`: it always prompts, throws `Invalid input` on cancel, splits a
   * list the way the shared prompt does and wraps a single value.
   */
  function GetCommandInput(k: GetKind, answer: Option<string>): (r: Result<seq<string>>)
    ensures r.Err? <==> answer.None?
    ensures r.Err? ==> r.message == InvalidInput
    ensures answer.Some? && !TakesList(k) ==> r.value == [answer.value]
    ensures answer.Some? && TakesList(k) ==> r.value == SplitList(answer.value)
  {
    Helper.CommandInput(if TakesList(k) then ListInput else SingleInput, answer)
  }

  function GetArgv(k: GetKind, ids: seq<string>, format: string): (r: seq<string>)
    ensures |r| == |ids| + 4
    ensures r[..2] == ["get", KindLabel(k)] && r[2..|ids| + 2] == ids && r[|ids| + 2..] == ["--format", format]
  {
    ["get", KindLabel(k)] + ids + ["--format", format]
  }

  function GetEventEffects(k: GetKind, format: string, e: ProcessEvent): seq<Effect>
  {
    match e
    case StdoutData(c) =>
      [ShowInfo(SuccessMessage(k)), OpenPanel(ViewType(k), KindLabel(k) + "-" + PanelExtension(format), c)]
    case StderrData(c) => StderrEffects(c, GetGenericMessage)
    case Closed(_) => []
  }

  datatype GetOutcome = NotRun | Got(argv: seq<string>, effects: seq<Effect>)

  /**
   * `runOryGet`: a cancelled ID prompt shows the error from the catch handler, yet the command
   * still runs, with no IDs.
   */
  method RunOryGet(pick: Option<GetKind>, answer: Option<string>, formatInput: Option<FormatPick>, events: seq<ProcessEvent>)
    returns (outcome: GetOutcome)
    ensures outcome.Got? <==> pick.Some?
    ensures outcome.Got? ==>
      var ids := if answer.None? then [] else GetCommandInput(pick.value, answer).value;
      && outcome.argv == GetArgv(pick.value, ids, Format(formatInput))
      && outcome.effects == (if answer.None? then [ShowError(InvalidInput)] else [])
           + Reactions(events, e => GetEventEffects(pick.value, Format(formatInput), e))
  {
    if pick.None? {
      return NotRun;
    }
    var k := pick.value;
    var commandOutput: seq<string> := [];
    var effects: seq<Effect> := [];
    var input := GetCommandInput(k, answer);
    if input.Ok? {
      commandOutput := input.value;
    } else {
      effects := effects + [ShowError(input.message)];
    }
    var outputFormat := Format(formatInput);
    var argv := ["get", KindLabel(k)] + commandOutput + ["--format", outputFormat];
    outcome := Got(argv, effects + Reactions(events, e => GetEventEffects(k, outputFormat, e)));
  }

  /** A cancelled ID prompt still runs `get <kind> --format <format>`. */
  lemma CancelledIdsStillRun(k: GetKind, format: string)
    ensures GetArgv(k, [], format) == ["get", KindLabel(k), "--format", format]
  {
  }

  /**
   * Every output chunk opens one panel titled `<kind>-json` or `<kind>-yaml` (yaml only for
   * the yaml pick) holding that chunk, and no other panel is opened.
   */
  lemma PanelPerChunk(k: GetKind, formatInput: Option<FormatPick>, events: seq<ProcessEvent>, viewType: string, title: string, content: string)
    ensures OpenPanel(viewType, title, content) in Reactions(events, e => GetEventEffects(k, Format(formatInput), e)) <==>
      && viewType == ViewType(k)
      && title == KindLabel(k) + "-" + (if formatInput == Some(YamlFormat) then "yaml" else "json")
      && exists i :: 0 <= i < |events| && events[i] == StdoutData(content)
  {
    var x := OpenPanel(viewType, title, content);
    var format := Format(formatInput);
    var react := e => GetEventEffects(k, format, e);
    FormatChoice(formatInput);
    ReactionsMember(events, react, x);
    forall i | 0 <= i < |events|
      ensures x in react(events[i]) <==>
        viewType == ViewType(k) && title == KindLabel(k) + "-" + PanelExtension(format) && events[i] == StdoutData(content)
    {
      EventPanel(k, format, events[i], x);
    }
  }

  lemma EventPanel(k: GetKind, format: string, e: ProcessEvent, x: Effect)
    requires x.OpenPanel?
    ensures x in GetEventEffects(k, format, e) <==>
      x.viewType == ViewType(k) && x.title == KindLabel(k) + "-" + PanelExtension(format) && e == StdoutData(x.content)
  {
    if e.StderrData? {
      assert forall y :: y in StderrEffects(e.chunk, GetGenericMessage) ==> !y.OpenPanel?;
    }
  }

  /** The process is killed exactly when some error chunk reports an expired session. */
  lemma KillIff(k: GetKind, format: string, events: seq<ProcessEvent>)
    ensures KillProcess in Reactions(events, e => GetEventEffects(k, format, e)) <==>
      exists i :: 0 <= i < |events| && events[i].StderrData? && Contains(events[i].chunk, SessionExpired)
  {
    var react := e => GetEventEffects(k, format, e);
    ReactionsMember(events, react, KillProcess);
    forall i | 0 <= i < |events|
      ensures KillProcess in react(events[i]) <==> events[i].StderrData? && Contains(events[i].chunk, SessionExpired)
    {
      EventKills(k, format, events[i]);
    }
  }

  lemma EventKills(k: GetKind, format: string, e: ProcessEvent)
    ensures KillProcess in GetEventEffects(k, format, e) <==> e.StderrData? && Contains(e.chunk, SessionExpired)
  {
    if e.StderrData? {
      StderrClassification(e.chunk, GetGenericMessage);
    }
  }
}
