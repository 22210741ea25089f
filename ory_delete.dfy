/**
 * `ory delete <kind>`: the ID prompt, the argument vector, and for identities and OAuth 2.0
 * clients the trimmed output that the delete hands back to its caller.
 */
module OryDelete {
  import opened Wrappers
  import opened JsText
  import opened Helper

  datatype DeleteKind = IdentityDelete | AccessTokens | JwkDelete | OAuth2ClientDelete | RelationshipsDelete

  function KindLabel(k: DeleteKind): string
  {
    match k
    case IdentityDelete => "identity"
    case AccessTokens => "access-tokens"
    case JwkDelete => "jwk"
    case OAuth2ClientDelete => "oauth2-client"
    case RelationshipsDelete => "relationships"
  }

  /** The prompt type: identities, key sets and clients take a comma-separated list. */
  function InputKindOf(k: DeleteKind): InputKind
  {
    if k == IdentityDelete || k == JwkDelete || k == OAuth2ClientDelete then ListInput else SingleInput
  }

  /** The component name the output handler is given; the identity delete passes `project`. */
  function Component(k: DeleteKind): string
  {
    if k == IdentityDelete then "project" else KindLabel(k)
  }

  function DeleteArgv(k: DeleteKind, ids: seq<string>): (r: seq<string>)
    ensures |r| == |ids| + 4
    ensures r[..2] == ["delete", KindLabel(k)] && r[2..|ids| + 2] == ids && r[|ids| + 2..] == ["--format", "json"]
  {
    ["delete", KindLabel(k)] + ids + ["--format", "json"]
  }

  /**
   * `oryDeleteIdentity`, `oryDeleteAccessTokens`, `oryDeleteJWK`, `oryDeleteOauth2Client` and
   * `oryDeleteRelationships`: spawn, hand the output to the shared handler, and settle with its
   * trimmed stdout (`None` while the process has not closed).
   */
  method OryDeleteKind(k: DeleteKind, ids: seq<string>, events: seq<ProcessEvent>)
    returns (argv: seq<string>, result: Option<string>, effects: seq<Effect>)
    ensures argv == DeleteArgv(k, ids)
    ensures result == Resolution(events)
    ensures effects == AllEffects(Component(k), Some(""), events)
    ensures forall e :: e in effects ==> !e.OpenPanel?
  {
    argv := ["delete", KindLabel(k)] + ids + ["--format", "json"];
    result, effects := SpawnCommonErrAndClose(Component(k), Some(""), events);
    NoPanelWithoutFormat(Component(k), Some(""), events);
  }

  datatype DeleteOutcome =
    | NotRun
    | Logged(line: string)
    | Deleted(argv: seq<string>, effects: seq<Effect>, output: Option<string>)

  /** `runOryDelete`: a failed prompt only logs `[<kind>] Error: <message>` and deletes nothing. */
  method RunOryDelete(pick: Option<DeleteKind>, answer: Option<string>, events: seq<ProcessEvent>)
    returns (outcome: DeleteOutcome)
    ensures pick.None? ==> outcome == NotRun
    ensures pick.Some? && answer.None? ==> outcome == Logged("[" + KindLabel(pick.value) + "] Error: Invalid input")
    ensures outcome.Deleted? <==> pick.Some? && answer.Some?
    ensures outcome.Deleted? && InputKindOf(pick.value) == SingleInput ==>
      outcome.argv == DeleteArgv(pick.value, [answer.value])
    ensures outcome.Deleted? && InputKindOf(pick.value) == ListInput ==>
      && outcome.argv == DeleteArgv(pick.value, SplitList(answer.value))
      && |outcome.argv| == CountChar(answer.value, ',') + 5
    ensures outcome.Deleted? ==>
      outcome.effects == AllEffects(Component(pick.value), Some(""), events) && outcome.output == Resolution(events)
  {
    if pick.None? {
      return NotRun;
    }
    var k := pick.value;
    var cmdOutput := Helper.CommandInput(InputKindOf(k), answer);
    if cmdOutput.Err? {
      return Logged("[" + KindLabel(k) + "] Error: " + cmdOutput.message);
    }
    var argv, result, effects := OryDeleteKind(k, cmdOutput.value, events);
    outcome := Deleted(argv, effects, result);
  }
}
