/**
 * The relationships tree view: relation tuples as the permission service lists them are
 * grouped into subject -> relation -> objects, and a subject node expands into one node per
 * relation holding one leaf per object.
 */
module ListRelationships {
  import opened Wrappers
  import opened JsDict
  import JsText

  /** An indirect subject: every holder of `relation` on `namespace:object`. */
  datatype SubjectSet = SubjectSet(namespace: string, obj: string, relation: Option<string>)

  /** One relation tuple of the list output; either subject form may be absent. */
  datatype RelationTuple = RelationTuple(
    namespace: string,
    obj: string,
    relation: string,
    subjectId: Option<string>,
    subjectSet: Option<SubjectSet>)

  /** A tuple flattened to its subject, relation and object strings. */
  datatype Permission = Permission(subject: string, relation: string, obj: string)

  /** Objects per relation, relations in first-seen order. */
  type Relations = Dict<seq<string>>

  /** Relations per subject, subjects in first-seen order. */
  type Groups = Dict<Relations>

  // ---------------------------------------------------------------------------
  // Canonical strings

  /** `ns:obj#rel` when the relation is defined and non-empty, `ns:obj` otherwise. */
  function SubjectSetKey(s: SubjectSet): string
  {
    if s.relation.Some? && s.relation.value != "" then s.namespace + ":" + s.obj + "#" + s.relation.value
    else s.namespace + ":" + s.obj
  }

  /** The subject string: the subject set's key, the subject id, or "" when both or neither are given. */
  function SubjectKey(t: RelationTuple): string
  {
    if t.subjectId.None? && t.subjectSet.Some? then SubjectSetKey(t.subjectSet.value)
    else if t.subjectId.Some? && t.subjectSet.None? then t.subjectId.value
    else ""
  }

  /** The object string `namespace:object`. */
  function ObjectKey(t: RelationTuple): string
  {
    t.namespace + ":" + t.obj
  }

  function ToPermission(t: RelationTuple): Permission
  {
    Permission(SubjectKey(t), t.relation, ObjectKey(t))
  }

  /** Every tuple flattened, in order. */
  function Permissions(ts: seq<RelationTuple>): (ps: seq<Permission>)
    ensures |ps| == |ts|
    ensures forall i :: 0 <= i < |ts| ==> ps[i] == ToPermission(ts[i])
  {
    if ts == [] then [] else Permissions(ts[..|ts| - 1]) + [ToPermission(ts[|ts| - 1])]
  }

  /** The relation of a subject set as its key shows it: "" for an undefined one. */
  function ShownRelation(s: SubjectSet): string
  {
    if s.relation.Some? then s.relation.value else ""
  }

  /** In `x + [c] + y` with `c` not in `x`, the first `c` is at position `|x|`. */
  lemma FirstSeparator(x: string, c: char, y: string)
    requires c !in x
    ensures (x + [c] + y)[|x|] == c
    ensures forall i :: 0 <= i < |x| ==> (x + [c] + y)[i] != c
  {
    forall i | 0 <= i < |x| ensures (x + [c] + y)[i] != c {
      assert (x + [c] + y)[i] == x[i];
    }
  }

  /** Two strings joined by a separator that neither left part contains split back uniquely. */
  lemma SeparatorSplitsUniquely(x1: string, y1: string, x2: string, y2: string, c: char)
    requires c !in x1 && c !in x2
    requires x1 + [c] + y1 == x2 + [c] + y2
    ensures x1 == x2 && y1 == y2
  {
    FirstSeparator(x1, c, y1);
    FirstSeparator(x2, c, y2);
    assert |x1| == |x2|;
    assert x1 == (x1 + [c] + y1)[..|x1|];
    assert x2 == (x2 + [c] + y2)[..|x2|];
    assert y1 == (x1 + [c] + y1)[|x1| + 1..];
    assert y2 == (x2 + [c] + y2)[|x2| + 1..];
  }

  /**
   * Subject-set keys tell subject sets apart: when namespaces have no `:` and objects no
   * `#`, two subject sets get the same key exactly when they agree on namespace, object and
   * shown relation (an undefined relation and an empty one look the same).
   */
  lemma SubjectSetKeyInjective(a: SubjectSet, b: SubjectSet)
    requires ':' !in a.namespace && ':' !in b.namespace
    requires '#' !in a.obj && '#' !in b.obj
    ensures SubjectSetKey(a) == SubjectSetKey(b) <==>
      a.namespace == b.namespace && a.obj == b.obj && ShownRelation(a) == ShownRelation(b)
  {
    var ra, rb := ShownRelation(a), ShownRelation(b);
    var ta := if ra != "" then a.obj + "#" + ra else a.obj;
    var tb := if rb != "" then b.obj + "#" + rb else b.obj;
    assert SubjectSetKey(a) == a.namespace + [':'] + ta;
    assert SubjectSetKey(b) == b.namespace + [':'] + tb;
    if SubjectSetKey(a) == SubjectSetKey(b) {
      SeparatorSplitsUniquely(a.namespace, ta, b.namespace, tb, ':');
      if ra != "" && rb != "" {
        SeparatorSplitsUniquely(a.obj, ra, b.obj, rb, '#');
      }
    }
  }

  /** Object keys tell objects apart when namespaces have no `:`. */
  lemma ObjectKeyInjective(a: RelationTuple, b: RelationTuple)
    requires ':' !in a.namespace && ':' !in b.namespace
    ensures ObjectKey(a) == ObjectKey(b) <==> a.namespace == b.namespace && a.obj == b.obj
  {
    if ObjectKey(a) == ObjectKey(b) {
      SeparatorSplitsUniquely(a.namespace, a.obj, b.namespace, b.obj, ':');
    }
  }

  // ---------------------------------------------------------------------------
  // Grouping

  /** The relations of `subject` in a grouping; empty when the subject is absent. */
  function RelationsOf(g: Groups, subject: string): Relations
  {
    if Lookup(g, subject).Some? then Lookup(g, subject).value else []
  }

  /** The objects filed under `relation`; empty when the relation is absent. */
  function ObjectsIn(rels: Relations, relation: string): seq<string>
  {
    if Lookup(rels, relation).Some? then Lookup(rels, relation).value else []
  }

  /** File one permission: append its object to its subject's list for its relation. */
  function Insert(g: Groups, p: Permission): Groups
  {
    var rels := RelationsOf(g, p.subject);
    Put(g, p.subject, Put(rels, p.relation, ObjectsIn(rels, p.relation) + [p.obj]))
  }

  /** The grouping of a sequence of permissions, filed in order. */
  function Group(ps: seq<Permission>): Groups
  {
    if ps == [] then [] else Insert(Group(ps[..|ps| - 1]), ps[|ps| - 1])
  }

  /** The objects filed under `subject` and `relation`; empty when there are none. */
  function ObjectsOf(g: Groups, subject: string, relation: string): seq<string>
  {
    ObjectsIn(RelationsOf(g, subject), relation)
  }

  /** Reference definition: the objects of the permissions with that subject and relation, in input order. */
  function MatchingObjects(ps: seq<Permission>, subject: string, relation: string): seq<string>
  {
    if ps == [] then []
    else
      var p := ps[|ps| - 1];
      MatchingObjects(ps[..|ps| - 1], subject, relation)
      + (if p.subject == subject && p.relation == relation then [p.obj] else [])
  }

  /** The first occurrence of each element, in order of first occurrence. */
  function Dedup(xs: seq<string>): seq<string>
  {
    if xs == [] then []
    else
      var d := Dedup(xs[..|xs| - 1]);
      if xs[|xs| - 1] in d then d else d + [xs[|xs| - 1]]
  }

  /** The subjects of the permissions, in input order. */
  function Subjects(ps: seq<Permission>): seq<string>
  {
    seq(|ps|, i requires 0 <= i < |ps| => ps[i].subject)
  }

  /** The relations of the permissions whose subject is `subject`, in input order. */
  function RelationsFor(ps: seq<Permission>, subject: string): seq<string>
  {
    if ps == [] then []
    else
      var p := ps[|ps| - 1];
      RelationsFor(ps[..|ps| - 1], subject) + (if p.subject == subject then [p.relation] else [])
  }

  /** The relation keys of `subject` in a grouping; empty when the subject is absent. */
  function RelationKeysOf(g: Groups, subject: string): seq<string>
  {
    Keys(RelationsOf(g, subject))
  }

  lemma RelationsOfPut(g: Groups, s: string, rels: Relations, subject: string)
    ensures RelationsOf(Put(g, s, rels), subject) == if s == subject then rels else RelationsOf(g, subject)
  {
  }

  lemma ObjectsInPut(rels: Relations, r: string, objs: seq<string>, relation: string)
    ensures ObjectsIn(Put(rels, r, objs), relation) == if r == relation then objs else ObjectsIn(rels, relation)
  {
  }

  /** Filing one permission appends its object to exactly one list. */
  lemma InsertObjects(g: Groups, p: Permission, subject: string, relation: string)
    ensures ObjectsOf(Insert(g, p), subject, relation) ==
      ObjectsOf(g, subject, relation) + (if p.subject == subject && p.relation == relation then [p.obj] else [])
  {
    var rels := RelationsOf(g, p.subject);
    var objs := ObjectsIn(rels, p.relation) + [p.obj];
    var rels' := Put(rels, p.relation, objs);
    RelationsOfPut(g, p.subject, rels', subject);
    if p.subject == subject {
      ObjectsInPut(rels, p.relation, objs, relation);
    }
  }

  /**
   * Order preservation: the objects filed under a subject and relation are exactly the
   * objects of the matching tuples, in input order, duplicates kept.
   */
  lemma {:induction false} GroupObjects(ps: seq<Permission>, subject: string, relation: string)
    ensures ObjectsOf(Group(ps), subject, relation) == MatchingObjects(ps, subject, relation)
    decreases |ps|
  {
    if ps != [] {
      GroupObjects(ps[..|ps| - 1], subject, relation);
      InsertObjects(Group(ps[..|ps| - 1]), ps[|ps| - 1], subject, relation);
    }
  }

  /** Filing one permission adds its relation to its subject's keys when it is new there. */
  lemma InsertRelationKeys(g: Groups, p: Permission, subject: string)
    ensures RelationKeysOf(Insert(g, p), subject) ==
      if p.subject != subject || p.relation in RelationKeysOf(g, subject) then RelationKeysOf(g, subject)
      else RelationKeysOf(g, subject) + [p.relation]
  {
    var rels := RelationsOf(g, p.subject);
    var rels' := Put(rels, p.relation, ObjectsIn(rels, p.relation) + [p.obj]);
    var g' := Put(g, p.subject, rels');
    assert Insert(g, p) == g';
    if p.subject == subject {
      assert Lookup(g', subject) == Some(rels');
      assert RelationsOf(g', subject) == rels';
    } else {
      assert Lookup(g', subject) == Lookup(g, subject);
    }
  }

  lemma {:induction false} DedupMembership(xs: seq<string>, x: string)
    ensures x in Dedup(xs) <==> x in xs
    decreases |xs|
  {
    if xs != [] {
      DedupMembership(xs[..|xs| - 1], x);
      assert xs == xs[..|xs| - 1] + [xs[|xs| - 1]];
    }
  }

  /** Subjects appear once each, in the order of their first tuple. */
  lemma {:induction false} GroupSubjectOrder(ps: seq<Permission>)
    ensures Keys(Group(ps)) == Dedup(Subjects(ps))
    decreases |ps|
  {
    if ps != [] {
      var n := |ps| - 1;
      GroupSubjectOrder(ps[..n]);
      assert Subjects(ps[..n]) == Subjects(ps)[..n];
    }
  }

  lemma DedupSnoc(xs: seq<string>, x: string)
    ensures Dedup(xs + [x]) == if x in xs then Dedup(xs) else Dedup(xs) + [x]
  {
    assert (xs + [x])[..|xs|] == xs;
    DedupMembership(xs, x);
  }

  /** Within a subject, relations appear once each, in the order of their first tuple. */
  lemma {:induction false} GroupRelationOrder(ps: seq<Permission>, subject: string)
    ensures RelationKeysOf(Group(ps), subject) == Dedup(RelationsFor(ps, subject))
    decreases |ps|
  {
    if ps != [] {
      var n := |ps| - 1;
      var g := Group(ps[..n]);
      var xs := RelationsFor(ps[..n], subject);
      GroupRelationOrder(ps[..n], subject);
      assert Group(ps) == Insert(g, ps[n]);
      InsertRelationKeys(g, ps[n], subject);
      if ps[n].subject == subject {
        assert RelationsFor(ps, subject) == xs + [ps[n].relation];
        DedupSnoc(xs, ps[n].relation);
        DedupMembership(xs, ps[n].relation);
      } else {
        assert RelationsFor(ps, subject) == xs;
      }
    }
  }

  lemma DedupUnique(xs: seq<string>)
    ensures forall i, j :: 0 <= i < j < |Dedup(xs)| ==> Dedup(xs)[i] != Dedup(xs)[j]
    decreases |xs|
  {
    if xs != [] {
      DedupUnique(xs[..|xs| - 1]);
    }
  }

  /** Number of objects filed under all relations of one subject. */
  function RelationsTotal(rels: Relations): nat
  {
    if rels == [] then 0 else |rels[0].1| + RelationsTotal(rels[1..])
  }

  /** Number of objects filed in the whole grouping. */
  function GroupsTotal(g: Groups): nat
  {
    if g == [] then 0 else RelationsTotal(g[0].1) + GroupsTotal(g[1..])
  }

  lemma {:induction false} RelationsTotalPut(rels: Relations, k: string, v: seq<string>)
    ensures RelationsTotal(Put(rels, k, v)) ==
      RelationsTotal(rels) + |v| - (match Lookup(rels, k) case Some(prev) => |prev| case None => 0)
    decreases |rels|
  {
    if rels != [] && rels[0].0 != k {
      RelationsTotalPut(rels[1..], k, v);
    }
  }

  lemma {:induction false} GroupsTotalPut(g: Groups, k: string, v: Relations)
    ensures GroupsTotal(Put(g, k, v)) ==
      GroupsTotal(g) + RelationsTotal(v) - (match Lookup(g, k) case Some(prev) => RelationsTotal(prev) case None => 0)
    decreases |g|
  {
    if g != [] && g[0].0 != k {
      GroupsTotalPut(g[1..], k, v);
    }
  }

  /** Filing a permission adds exactly one object. */
  lemma InsertTotal(g: Groups, p: Permission)
    ensures GroupsTotal(Insert(g, p)) == GroupsTotal(g) + 1
  {
    var rels := RelationsOf(g, p.subject);
    var objects := ObjectsIn(rels, p.relation);
    RelationsTotalPut(rels, p.relation, objects + [p.obj]);
    GroupsTotalPut(g, p.subject, Put(rels, p.relation, objects + [p.obj]));
  }

  /** No tuple is lost or duplicated: the grouping holds one object per input tuple. */
  lemma {:induction false} GroupTotal(ps: seq<Permission>)
    ensures GroupsTotal(Group(ps)) == |ps|
    decreases |ps|
  {
    if ps != [] {
      GroupTotal(ps[..|ps| - 1]);
      InsertTotal(Group(ps[..|ps| - 1]), ps[|ps| - 1]);
    }
  }

  /** One step of the grouping loop: the `has`/`get`/`push`/`set` branches on the nested map. */
  method FileRelationship(relationshipsMap: Groups, item: Permission) returns (r: Groups)
    ensures r == Insert(relationshipsMap, item)
  {
    var subjectMap := Lookup(relationshipsMap, item.subject);
    if subjectMap.Some? {
      var existingObjects := Lookup(subjectMap.value, item.relation);
      if existingObjects.Some? {
        assert RelationsOf(relationshipsMap, item.subject) == subjectMap.value;
        assert ObjectsIn(subjectMap.value, item.relation) == existingObjects.value;
        r := Put(relationshipsMap, item.subject,
                 Put(subjectMap.value, item.relation, existingObjects.value + [item.obj]));
      } else {
        assert RelationsOf(relationshipsMap, item.subject) == subjectMap.value;
        assert ObjectsIn(subjectMap.value, item.relation) + [item.obj] == [item.obj];
        r := Put(relationshipsMap, item.subject, Put(subjectMap.value, item.relation, [item.obj]));
      }
    } else {
      assert RelationsOf(relationshipsMap, item.subject) == [];
      assert ObjectsIn([], item.relation) + [item.obj] == [item.obj];
      r := Put(relationshipsMap, item.subject, Put([], item.relation, [item.obj]));
    }
  }

  lemma PermissionsSnoc(ts: seq<RelationTuple>, i: nat)
    requires i < |ts|
    ensures Permissions(ts[..i + 1]) == Permissions(ts[..i]) + [ToPermission(ts[i])]
  {
    JsText.TakeSnoc(ts, i);
  }

  lemma GroupSnoc(ps: seq<Permission>, i: nat)
    requires i < |ps|
    ensures Group(ps[..i + 1]) == Insert(Group(ps[..i]), ps[i])
  {
    JsText.TakeSnoc(ps, i);
  }

  /**
   * `buildRelationshipsJSON`: flatten every tuple to its subject, relation and object
   * strings, then file them one by one into the nested map.
   */
  method BuildRelationshipsJSON(tuples: seq<RelationTuple>) returns (subjects: Groups)
    ensures subjects == Group(Permissions(tuples))
  {
    var topLevelList: seq<Permission> := [];
    for i := 0 to |tuples|
      invariant topLevelList == Permissions(tuples[..i])
    {
      PermissionsSnoc(tuples, i);
      topLevelList := topLevelList + [ToPermission(tuples[i])];
    }
    assert tuples[..|tuples|] == tuples;
    subjects := GroupPermissions(topLevelList);
  }

  /** The second loop of `buildRelationshipsJSON`: file every permission into the nested map. */
  method GroupPermissions(topLevelList: seq<Permission>) returns (relationshipsMap: Groups)
    ensures relationshipsMap == Group(topLevelList)
  {
    relationshipsMap := [];
    for i := 0 to |topLevelList|
      invariant relationshipsMap == Group(topLevelList[..i])
    {
      var item := topLevelList[i];
      GroupSnoc(topLevelList, i);
      relationshipsMap := FileRelationship(relationshipsMap, item);
    }
    assert topLevelList[..|topLevelList|] == topLevelList;
  }

  // ---------------------------------------------------------------------------
  // Tree items

  /** A leaf: one object under a relation node. */
  datatype ObjectLeaf = ObjectLeaf(name: string, tooltip: string)

  /** A relation node and its leaves. */
  datatype RelationNode = RelationNode(name: string, tooltip: string, leaves: seq<ObjectLeaf>)

  /** A tree item's tooltip: the given one, or the label when the given one is empty. */
  function TooltipOr(tooltip: string, name: string): string
  {
    if tooltip == "" then name else tooltip
  }

  function Leaves(subject: string, relation: string, objects: seq<string>): seq<ObjectLeaf>
  {
    seq(|objects|, i requires 0 <= i < |objects| =>
      ObjectLeaf(objects[i], subject + " is " + relation + " of " + objects[i]))
  }

  /** The node for one relation; the empty relation name is falsy and gets no leaves. */
  function RelationNodeFor(subject: string, relation: string, objects: seq<string>): RelationNode
  {
    RelationNode(relation, TooltipOr("", relation), if relation != "" then Leaves(subject, relation, objects) else [])
  }

  /** One node per relation, in the subject's relation order. */
  function RelationNodes(subject: string, rels: Relations): (r: seq<RelationNode>)
    ensures |r| == |rels|
  {
    if rels == [] then []
    else [RelationNodeFor(subject, rels[0].0, rels[0].1)] + RelationNodes(subject, rels[1..])
  }

  lemma {:induction false} RelationNodesAppend(subject: string, rels: Relations, i: nat)
    requires i < |rels|
    ensures RelationNodes(subject, rels[..i + 1]) ==
      RelationNodes(subject, rels[..i]) + [RelationNodeFor(subject, rels[i].0, rels[i].1)]
    decreases i
  {
    if i > 0 {
      assert rels[..i + 1][1..] == rels[1..][..i];
      assert rels[..i][1..] == rels[1..][..i - 1];
      RelationNodesAppend(subject, rels[1..], i - 1);
    }
  }

  /**
   * Expanding the subject node of a grouping gives one node per distinct relation of the
   * subject, in the order of their first tuple; the node for a relation holds one leaf per
   * matching tuple, in input order (none when the relation name is empty).
   */
  lemma ExpansionMatchesTuples(ps: seq<Permission>, subject: string, k: nat)
    requires Lookup(Group(ps), subject).Some?
    requires k < |Lookup(Group(ps), subject).value|
    ensures var nodes := RelationNodes(subject, Lookup(Group(ps), subject).value);
      var relations := Dedup(RelationsFor(ps, subject));
      && |nodes| == |relations|
      && nodes[k] == RelationNodeFor(subject, relations[k], MatchingObjects(ps, subject, relations[k]))
  {
    var rels := Lookup(Group(ps), subject).value;
    assert RelationsOf(Group(ps), subject) == rels;
    RelationNodesShape(subject, rels, k);
    GroupRelationOrder(ps, subject);
    assert Keys(rels)[k] == rels[k].0;
    DedupUnique(RelationsFor(ps, subject));
    LookupAtUniqueKey(rels, k);
    assert ObjectsOf(Group(ps), subject, rels[k].0) == rels[k].1;
    GroupObjects(ps, subject, rels[k].0);
  }

  lemma {:induction false} RelationNodesShape(subject: string, rels: Relations, k: nat)
    requires k < |rels|
    ensures RelationNodes(subject, rels)[k] == RelationNodeFor(subject, rels[k].0, rels[k].1)
    decreases k
  {
    if k > 0 {
      RelationNodesShape(subject, rels[1..], k - 1);
    }
  }

  /** With distinct keys, looking up the key at position k gives the value at position k. */
  lemma {:induction false} LookupAtUniqueKey<V>(d: Dict<V>, k: nat)
    requires k < |d|
    requires forall i, j :: 0 <= i < j < |Keys(d)| ==> Keys(d)[i] != Keys(d)[j]
    ensures Lookup(d, d[k].0) == Some(d[k].1)
    decreases k
  {
    if k > 0 {
      assert Keys(d)[0] != Keys(d)[k];
      LookupAtUniqueKey(d[1..], k - 1);
    }
  }

  /** A subject node of the tree (`RelationshipsTreeItem`). */
  class RelationshipsTreeItem {
    const subject: string
    const relationships: Relations
    const tooltip: string
    var children: seq<RelationNode>

    constructor (subject: string, relationships: Relations, tooltip: string)
      ensures this.subject == subject && this.relationships == relationships
      ensures this.tooltip == TooltipOr(tooltip, subject)
      ensures children == []
    {
      this.subject := subject;
      this.relationships := relationships;
      this.tooltip := TooltipOr(tooltip, subject);
      children := [];
    }

    /**
     * `getChildren`: pushes one node per relation onto `children`, which is never cleared,
     * and returns all of `children`.
     */
    method GetChildren() returns (r: seq<RelationNode>)
      modifies this
      ensures children == old(children) + RelationNodes(subject, relationships)
      ensures r == children
    {
      for i := 0 to |relationships|
        invariant children == old(children) + RelationNodes(subject, relationships[..i])
      {
        var relationship := relationships[i].0;
        var objects := relationships[i].1;
        var leaves: seq<ObjectLeaf> := [];
        if relationship != "" {
          for j := 0 to |objects|
            invariant leaves == Leaves(subject, relationship, objects[..j])
          {
            leaves := leaves + [ObjectLeaf(objects[j], subject + " is " + relationship + " of " + objects[j])];
          }
          assert objects[..|objects|] == objects;
        }
        RelationNodesAppend(subject, relationships, i);
        children := children + [RelationNode(relationship, TooltipOr("", relationship), leaves)];
      }
      assert relationships[..|relationships|] == relationships;
      r := children;
    }
  }

  /** Expanding the same subject node twice returns every relation node a second time. */
  method ExpandTwice(item: RelationshipsTreeItem) returns (first: seq<RelationNode>, second: seq<RelationNode>)
    requires item.children == []
    modifies item
    ensures first == RelationNodes(item.subject, item.relationships)
    ensures second == first + first
  {
    first := item.GetChildren();
    second := item.GetChildren();
  }

  /** The relationships tree view (`ListRelationshipsProvider`). */
  class ListRelationshipsProvider {
    var subjects: Groups

    /** The constructor starts an asynchronous `init`; its completion is `Init`. */
    constructor ()
      ensures subjects == []
    {
      subjects := [];
    }

    /**
     * Completion of `init`: a fetched list replaces the grouping; a failed fetch yields `[]`,
     * whose `relation_tuples` is undefined, so the grouping throws and nothing changes.
     */
    method Init(fetched: Option<seq<RelationTuple>>)
      modifies this
      ensures fetched.Some? ==> subjects == Group(Permissions(fetched.value))
      ensures fetched.None? ==> subjects == old(subjects)
    {
      if fetched.Some? {
        var treeViewDataObj := BuildRelationshipsJSON(fetched.value);
        subjects := treeViewDataObj;
      }
    }

    /** `refresh`: empties the grouping; the re-fetch completes later as `Init`. */
    method Refresh()
      modifies this
      ensures subjects == []
    {
      subjects := [];
    }

    /** `getChildren()` at the root: one fresh subject node per subject, in order. */
    method GetRootChildren() returns (items: seq<RelationshipsTreeItem>)
      ensures |items| == |subjects|
      ensures forall i :: 0 <= i < |items| ==>
        && fresh(items[i])
        && items[i].subject == subjects[i].0
        && items[i].relationships == subjects[i].1
        && items[i].tooltip == subjects[i].0
        && items[i].children == []
    {
      items := [];
      for i := 0 to |subjects|
        invariant |items| == i
        invariant forall k :: 0 <= k < i ==>
          && fresh(items[k])
          && items[k].subject == subjects[k].0
          && items[k].relationships == subjects[k].1
          && items[k].tooltip == subjects[k].0
          && items[k].children == []
      {
        var topLevelItem := new RelationshipsTreeItem(subjects[i].0, subjects[i].1, "");
        items := items + [topLevelItem];
      }
    }
  }
}
