/**
 * `ory create jwk | project` and the two kinds that only acknowledge the pick: the argument
 * vectors, the substrings that make a stdout chunk count as success, the reaction to an
 * expired session, and the text of the "View Details" dialogs.
 */
module OryCreate {
  import opened Wrappers
  import opened JsText
  import opened Helper
  import opened JwkChoices

  datatype CreatePick = JwkCreate | OAuth2ClientCreate | ProjectCreate | RelationshipsCreate

  // ---------------------------------------------------------------------------
  // Argument vectors

  /** `${algorithm?.label}`: a cancelled pick is interpolated as the text `undefined`. */
  function AlgorithmText(a: Option<Algorithm>): (r: string)
    ensures r == "undefined" <==> a.None?
    ensures a.Some? ==> r in AlgorithmLabels
  {
    if a.None? then "undefined" else AlgorithmLabel(a.value)
  }

  /** `${intendedUse?.label}`. */
  function UseText(u: Option<KeyUse>): (r: string)
    ensures r == "undefined" <==> u.None?
    ensures u.Some? ==> r in UseLabels
  {
    if u.None? then "undefined" else UseLabel(u.value)
  }

  function JwkCreateArgv(setId: string, algorithm: Option<Algorithm>, intendedUse: Option<KeyUse>): (r: seq<string>)
    ensures |r| == 7 && r[..3] == ["create", "jwk", setId] && r[3] == "--alg" && r[5] == "--use"
    ensures r[4] == "undefined" <==> algorithm.None?
    ensures r[6] == "undefined" <==> intendedUse.None?
    ensures algorithm.Some? ==> r[4] == AlgorithmLabel(algorithm.value)
    ensures intendedUse.Some? ==> r[6] == UseLabel(intendedUse.value)
  {
    ["create", "jwk", setId, "--alg", AlgorithmText(algorithm), "--use", UseText(intendedUse)]
  }

  function ProjectCreateArgv(name: string): (r: seq<string>)
    ensures |r| == 4 && r[..3] == ["create", "project", "--name"] && r[3] == name
  {
    ["create", "project", "--name", name]
  }

  // ---------------------------------------------------------------------------
  // Reactions to the output

  const JwkSuccess := "JWK created successfully!"
  const ProjectSuccess := "Project created successfully!"

  /** A stdout chunk announces a created key set when it holds the table heading or the set ID. */
  predicate JwkCreated(chunk: string, setId: string)
  {
    Contains(chunk, "SET ID\tKEY ID") || Contains(chunk, setId)
  }

  /** A stdout chunk announces a created project when it holds `NAME<tab><name>`. */
  predicate ProjectCreated(chunk: string, name: string)
  {
    Contains(chunk, "NAME\t" + name)
  }

  /** With an empty set ID every stdout chunk, even an empty one, counts as success. */
  lemma JwkCreatedWithEmptySetId(chunk: string)
    ensures JwkCreated(chunk, "")
  {
    assert OccursAt(chunk, "", 0);
  }

  /**
   * A stderr chunk reporting an expired session is shown with a re-authenticate button; in the
   * project branch the process is also killed. The key-set branch's kill names the project
   * process, which does not exist on that path, so nothing is killed there.
   */
  function StderrReaction(chunk: string, kills: bool): (r: seq<Effect>)
    ensures Contains(chunk, SessionExpired) ==> OfferReauthentication(chunk) in r
    ensures !Contains(chunk, SessionExpired) ==> r == []
    ensures KillProcess in r <==> kills && Contains(chunk, SessionExpired)
    ensures forall x :: x in r ==> !x.ShowError?
  {
    if !Contains(chunk, SessionExpired) then []
    else if kills then [OfferReauthentication(chunk), KillProcess]
    else [OfferReauthentication(chunk)]
  }

  function JwkEventEffects(setId: string, e: ProcessEvent): seq<Effect>
  {
    match e
    case StdoutData(c) => if JwkCreated(c, setId) then [ShowInfo(JwkSuccess)] else []
    case StderrData(c) => StderrReaction(c, false)
    case Closed(_) => []
  }

  function ProjectEventEffects(name: string, e: ProcessEvent): seq<Effect>
  {
    match e
    case StdoutData(c) => if ProjectCreated(c, name) then [ShowInfo(ProjectSuccess)] else []
    case StderrData(c) => StderrReaction(c, true)
    case Closed(_) => []
  }

  /** Success is announced exactly when some stdout chunk matches the project name. */
  lemma ProjectSuccessIff(name: string, events: seq<ProcessEvent>)
    ensures ShowInfo(ProjectSuccess) in Reactions(events, e => ProjectEventEffects(name, e)) <==>
      exists k :: 0 <= k < |events| && events[k].StdoutData? && ProjectCreated(events[k].chunk, name)
  {
    ReactionsMember(events, e => ProjectEventEffects(name, e), ShowInfo(ProjectSuccess));
  }

  /** The project process is killed exactly when some stderr chunk reports an expired session. */
  lemma ProjectKillIff(name: string, events: seq<ProcessEvent>)
    ensures KillProcess in Reactions(events, e => ProjectEventEffects(name, e)) <==>
      exists k :: 0 <= k < |events| && events[k].StderrData? && Contains(events[k].chunk, SessionExpired)
  {
    ReactionsMember(events, e => ProjectEventEffects(name, e), KillProcess);
  }

  /** The key-set run never kills its process and never shows a plain error box. */
  lemma JwkNeverKills(setId: string, events: seq<ProcessEvent>)
    ensures KillProcess !in Reactions(events, e => JwkEventEffects(setId, e))
    ensures forall m :: ShowError(m) !in Reactions(events, e => JwkEventEffects(setId, e))
  {
    ReactionsMember(events, e => JwkEventEffects(setId, e), KillProcess);
    forall m ensures ShowError(m) !in Reactions(events, e => JwkEventEffects(setId, e)) {
      ReactionsMember(events, e => JwkEventEffects(setId, e), ShowError(m));
    }
  }

  /** Success is announced exactly when some stdout chunk holds the table heading or the set ID. */
  lemma JwkSuccessIff(setId: string, events: seq<ProcessEvent>)
    ensures ShowInfo(JwkSuccess) in Reactions(events, e => JwkEventEffects(setId, e)) <==>
      exists k :: 0 <= k < |events| && events[k].StdoutData? && JwkCreated(events[k].chunk, setId)
  {
    ReactionsMember(events, e => JwkEventEffects(setId, e), ShowInfo(JwkSuccess));
  }

  // ---------------------------------------------------------------------------
  // "View Details" of a created key set

  /** `values[i]` interpolated into a string: `undefined` past the end. */
  function ValueAt(values: seq<string>, i: nat): (r: string)
    ensures i < |values| ==> r == values[i]
    ensures i >= |values| ==> r == "undefined"
  {
    if i < |values| then values[i] else "undefined"
  }

  /** One `heading: value` row per heading. */
  function DetailRows(headings: seq<string>, values: seq<string>): (r: seq<string>)
    ensures |r| == |headings|
    ensures forall i :: 0 <= i < |r| ==> r[i] == headings[i] + ": " + ValueAt(values, i)
  {
    seq(|headings|, i requires 0 <= i < |headings| => headings[i] + ": " + ValueAt(values, i))
  }

  /** The non-empty tab-separated fields of line `n` of the chunk. */
  function Fields(data: string, n: nat): seq<string>
    requires n < |Split(data, '\n')|
  {
    NonEmpty(Split(Split(data, '\n')[n], '\t'))
  }

  /** The detail text; `None` where reading the second line of a one-line chunk throws. */
  function JwkDetails(data: string): (r: Option<string>)
    ensures r.None? <==> |Split(data, '\n')| < 2
  {
    if |Split(data, '\n')| < 2 then None
    else Some(Terminated(DetailRows(Fields(data, 0), Fields(data, 1))))
  }

  /** `details()` of the key-set branch. */
  method JwkViewDetails(data: string) returns (detail: Option<string>)
    ensures detail == JwkDetails(data)
  {
    var processString := Split(data, '\n');
    if |processString| < 2 {
      return None;
    }
    var resultString := "";
    var headings := NonEmpty(Split(processString[0], '\t'));
    var values := NonEmpty(Split(processString[1], '\t'));
    ghost var rows := DetailRows(headings, values);
    for i := 0 to |headings|
      invariant resultString == Terminated(rows[..i])
    {
      var value := if i < |values| then values[i] else "undefined";
      var line := headings[i] + ": " + value;
      assert rows[i] == line;
      TakeSnoc(rows, i);
      TerminatedAppend(rows[..i], line);
      AppendAssoc(resultString, line, "\n");
      resultString := resultString + (line + "\n");
    }
    assert rows[..|headings|] == rows;
    detail := Some(resultString);
  }

  lemma FieldsNewlineFree(data: string, n: nat)
    requires n < |Split(data, '\n')|
    ensures forall k :: 0 <= k < |Fields(data, n)| ==> '\n' !in Fields(data, n)[k]
  {
    var line := Split(data, '\n')[n];
    SplitPiecesFree(data, '\n');
    SplitPiecesWithin(line, '\t');
  }

  /**
   * The detail text has one line per non-empty heading field of the first line, each
   * `heading: value` with the value at the same position among the second line's non-empty
   * fields, or `undefined` when there are fewer values.
   */
  lemma JwkDetailsLines(data: string)
    requires JwkDetails(data).Some?
    ensures var rows := DetailRows(Fields(data, 0), Fields(data, 1));
      && Split(JwkDetails(data).value, '\n') == rows + [""]
      && CountChar(JwkDetails(data).value, '\n') == |Fields(data, 0)|
  {
    var headings, values := Fields(data, 0), Fields(data, 1);
    var rows := DetailRows(headings, values);
    FieldsNewlineFree(data, 0);
    FieldsNewlineFree(data, 1);
    DetailRowsNewlineFree(headings, values);
    SplitTerminated(rows);
  }

  lemma DetailRowsNewlineFree(headings: seq<string>, values: seq<string>)
    requires forall k :: 0 <= k < |headings| ==> '\n' !in headings[k]
    requires forall k :: 0 <= k < |values| ==> '\n' !in values[k]
    ensures forall k :: 0 <= k < |headings| ==> '\n' !in DetailRows(headings, values)[k]
  {
    forall k | 0 <= k < |headings| ensures '\n' !in DetailRows(headings, values)[k] {
      var v := ValueAt(values, k);
      assert '\n' !in v;
      assert DetailRows(headings, values)[k] == headings[k] + ": " + v;
    }
  }

  // ---------------------------------------------------------------------------
  // "View Details" of a created project

  /** Each line with its first tab, if any, replaced by `: `. */
  function ProjectRows(lines: seq<string>): (r: seq<string>)
    ensures |r| == |lines|
  {
    seq(|lines|, i requires 0 <= i < |lines| => ReplaceFirst(lines[i], "\t", ": "))
  }

  function ProjectDetails(data: string): string
  {
    Join(ProjectRows(Split(data, '\n')), "\n")
  }

  /** The in-place `map` over the split lines. */
  method ReplaceFirstTabs(processString: array<string>)
    modifies processString
    ensures processString[..] == ProjectRows(old(processString[..]))
  {
    for index := 0 to processString.Length
      invariant forall k :: 0 <= k < index ==> processString[k] == ReplaceFirst(old(processString[k]), "\t", ": ")
      invariant forall k :: index <= k < processString.Length ==> processString[k] == old(processString[k])
    {
      processString[index] := ReplaceFirst(processString[index], "\t", ": ");
    }
  }

  /** `details()` of the project branch. */
  method ProjectViewDetails(data: string) returns (detail: string)
    ensures detail == ProjectDetails(data)
  {
    var lines := Split(data, '\n');
    var processString := new string[|lines|](i requires 0 <= i < |lines| => lines[i]);
    assert processString[..] == lines;
    ReplaceFirstTabs(processString);
    detail := Join(processString[..], "\n");
  }

  /** Replacing the first tab removes exactly one tab from a line that has one. */
  lemma ReplaceFirstTab(line: string)
    ensures !Contains(line, "\t") ==> ReplaceFirst(line, "\t", ": ") == line
    ensures Contains(line, "\t") ==> CountChar(ReplaceFirst(line, "\t", ": "), '\t') + 1 == CountChar(line, '\t')
  {
    var i := IndexOf(line, "\t");
    if i >= 0 {
      var before, after := line[..i], line[i + 1..];
      assert line == before + "\t" + after;
      CountCharAppend(before + "\t", after, '\t');
      CountCharAppend(before, "\t", '\t');
      CountCharAppend(before + ": ", after, '\t');
      CountCharAppend(before, ": ", '\t');
    }
  }

  /**
   * The project details keep the chunk's line count; each line loses only its first tab
   * (replaced by `: `) and a line without a tab is unchanged.
   */
  lemma ProjectDetailsLines(data: string)
    ensures var lines := Split(data, '\n');
      && Split(ProjectDetails(data), '\n') == ProjectRows(lines)
      && (forall i :: 0 <= i < |lines| && !Contains(lines[i], "\t") ==> ProjectRows(lines)[i] == lines[i])
      && (forall i :: 0 <= i < |lines| && Contains(lines[i], "\t") ==>
            CountChar(ProjectRows(lines)[i], '\t') + 1 == CountChar(lines[i], '\t'))
  {
    var lines := Split(data, '\n');
    var rows := ProjectRows(lines);
    SplitPiecesFree(data, '\n');
    forall k | 0 <= k < |rows| ensures '\n' !in rows[k] {
      ReplaceFirstAvoids(lines[k], "\t", ": ", '\n');
    }
    SplitJoin(rows, '\n');
    forall i | 0 <= i < |lines|
      ensures !Contains(lines[i], "\t") ==> rows[i] == lines[i]
      ensures Contains(lines[i], "\t") ==> CountChar(rows[i], '\t') + 1 == CountChar(lines[i], '\t')
    {
      ReplaceFirstTab(lines[i]);
    }
  }

  // ---------------------------------------------------------------------------
  // The command

  datatype CreateOutcome =
    | NotRun
    | ErrorShown(message: string)
    | InfoShown(message: string)
    | Created(argv: seq<string>, effects: seq<Effect>)

  /** `runOryCreate`: the pick, then the prompts of the picked branch, then the process's events. */
  function RunOryCreate(
    pick: Option<CreatePick>,
    setId: Option<string>,
    algorithm: Option<Algorithm>,
    intendedUse: Option<KeyUse>,
    projectName: Option<string>,
    events: seq<ProcessEvent>): (outcome: CreateOutcome)
    ensures pick.None? ==> outcome == NotRun
    ensures outcome.Created? <==>
      (pick == Some(JwkCreate) && setId.Some?) || (pick == Some(ProjectCreate) && projectName.Some?)
    ensures pick == Some(JwkCreate) && setId.None? ==> outcome == ErrorShown("Invalid jwk set id undefined")
    ensures pick == Some(ProjectCreate) && projectName.None? ==> outcome == ErrorShown("Invalid project name undefined")
    ensures pick == Some(OAuth2ClientCreate) ==> outcome == InfoShown("Got: oauth2-client")
    ensures pick == Some(RelationshipsCreate) ==> outcome == InfoShown("Got: relationships")
    ensures outcome.Created? && pick == Some(JwkCreate) ==>
      outcome.argv == JwkCreateArgv(setId.value, algorithm, intendedUse)
      && outcome.effects == Reactions(events, e => JwkEventEffects(setId.value, e))
    ensures outcome.Created? && pick == Some(ProjectCreate) ==>
      outcome.argv == ProjectCreateArgv(projectName.value)
      && outcome.effects == Reactions(events, e => ProjectEventEffects(projectName.value, e))
  {
    if pick.None? then NotRun
    else
      match pick.value
      case JwkCreate =>
        if setId.None? then ErrorShown("Invalid jwk set id undefined")
        else
          Created(["create", "jwk", setId.value, "--alg", AlgorithmText(algorithm), "--use", UseText(intendedUse)],
            Reactions(events, e => JwkEventEffects(setId.value, e)))
      case OAuth2ClientCreate => InfoShown("Got: oauth2-client")
      case ProjectCreate =>
        if projectName.None? then ErrorShown("Invalid project name undefined")
        else
          Created(["create", "project", "--name", projectName.value],
            Reactions(events, e => ProjectEventEffects(projectName.value, e)))
      case RelationshipsCreate => InfoShown("Got: relationships")
  }
}
