/**
 * The running-tunnel tree view: a flat list of the tunnel processes this session started,
 * each of which can be stopped (killed and removed) by id.
 */
module ListTunnelProcess {
  import opened Wrappers
  import JsText

  datatype Status = Running | Paused | Stopped

  /** The status as the record spells it. */
  function StatusName(s: Status): (r: string)
    ensures r in {"running", "paused", "stopped"}
  {
    match s
    case Running => "running"
    case Paused => "paused"
    case Stopped => "stopped"
  }

  /** A spawned child process, identified by the handle `kill` is called on. */
  type ProcessHandle = nat

  /** The record of one started process. */
  datatype RunningProcess = RunningProcess(
    id: string,
    command: string,
    status: Status,
    process: ProcessHandle,
    processName: string)

  /** A leaf of the view: labelled with the process name. */
  datatype RunningProcessTreeItem = RunningProcessTreeItem(runningPS: RunningProcess, name: string, tooltip: string)

  /** The tree item for a record (`new RunningProcessTreeItem`). */
  function TreeItemFor(p: RunningProcess): (r: RunningProcessTreeItem)
    ensures r.runningPS == p && r.name == p.processName
    ensures r.tooltip == "Process: " + p.id + "\nApplication: " + p.processName
  {
    RunningProcessTreeItem(p, p.processName, "Process: " + p.id + "\nApplication: " + p.processName)
  }

  /** `findIndex` on the id: the first item with that id, or -1. */
  function FindIndexById(items: seq<RunningProcessTreeItem>, id: string): (r: int)
    ensures -1 <= r < |items|
    ensures r == -1 <==> forall i :: 0 <= i < |items| ==> items[i].runningPS.id != id
    ensures r >= 0 ==> items[r].runningPS.id == id && forall i :: 0 <= i < r ==> items[i].runningPS.id != id
  {
    if items == [] then -1
    else if items[0].runningPS.id == id then 0
    else
      var r := FindIndexById(items[1..], id);
      if r == -1 then -1 else r + 1
  }

  /** The id an item is found and removed by. */
  function ItemId(item: RunningProcessTreeItem): string
  {
    item.runningPS.id
  }

  /** The items with that id, counted. */
  function CountId(items: seq<RunningProcessTreeItem>, id: string): nat
  {
    JsText.CountKey(items, ItemId, id)
  }

  /** The list after removing the first item with that id; unchanged when there is none. */
  function RemoveFirst(items: seq<RunningProcessTreeItem>, id: string): seq<RunningProcessTreeItem>
  {
    var i := FindIndexById(items, id);
    if i == -1 then items else items[..i] + items[i + 1..]
  }

  /**
   * Removing by id takes out exactly one item with that id when there is one and nothing
   * else: the other ids keep their counts, and the list shrinks by one.
   */
  lemma RemoveFirstCounts(items: seq<RunningProcessTreeItem>, id: string, other: string)
    ensures FindIndexById(items, id) == -1 ==> RemoveFirst(items, id) == items
    ensures FindIndexById(items, id) != -1 ==> |RemoveFirst(items, id)| == |items| - 1
    ensures CountId(RemoveFirst(items, id), other) ==
      if other == id && CountId(items, id) > 0 then CountId(items, id) - 1 else CountId(items, other)
  {
    var i := FindIndexById(items, id);
    if i == -1 {
      JsText.CountKeyAbsent(items, ItemId, id);
    } else {
      assert items == items[..i] + [items[i]] + items[i + 1..];
      JsText.CountKeySplit(items[..i] + [items[i]], items[i + 1..], ItemId, other);
      JsText.CountKeySplit(items[..i], [items[i]], ItemId, other);
      JsText.CountKeySplit(items[..i], items[i + 1..], ItemId, other);
      JsText.CountKeySplit(items[..i] + [items[i]], items[i + 1..], ItemId, id);
      JsText.CountKeySplit(items[..i], [items[i]], ItemId, id);
      assert CountId([items[i]], id) == 1;
    }
  }

  /** Stopping a process that was just added under a new id restores the list as it was. */
  lemma RemoveUndoesAdd(items: seq<RunningProcessTreeItem>, p: RunningProcess)
    requires forall i :: 0 <= i < |items| ==> items[i].runningPS.id != p.id
    ensures FindIndexById(items + [TreeItemFor(p)], p.id) == |items|
    ensures RemoveFirst(items + [TreeItemFor(p)], p.id) == items
  {
    var s := items + [TreeItemFor(p)];
    FindIndexAfter(items, TreeItemFor(p), p.id);
    JsText.SnocSlices(items, TreeItemFor(p));
    assert RemoveFirst(s, p.id) == s[..|items|] + s[|items| + 1..];
  }

  /** The first item with an id that only the appended item carries is the appended one. */
  lemma {:induction false} FindIndexAfter(items: seq<RunningProcessTreeItem>, x: RunningProcessTreeItem, id: string)
    requires forall i :: 0 <= i < |items| ==> items[i].runningPS.id != id
    requires x.runningPS.id == id
    ensures FindIndexById(items + [x], id) == |items|
    decreases |items|
  {
    if items != [] {
      assert (items + [x])[1..] == items[1..] + [x];
      FindIndexAfter(items[1..], x, id);
    }
  }

  /** The provider of the view (`ListRunningProcessProvider`), with the log of killed processes. */
  class ListRunningProcessProvider {
    var topLevelItems: seq<RunningProcessTreeItem>
    var killed: seq<ProcessHandle>

    constructor ()
      ensures topLevelItems == [] && killed == []
    {
      topLevelItems := [];
      killed := [];
    }

    /** `getChildren`: every item at the root, nothing under an item. */
    method GetChildren(element: Option<RunningProcessTreeItem>) returns (r: seq<RunningProcessTreeItem>)
      ensures element.None? ==> r == topLevelItems
      ensures element.Some? ==> r == []
    {
      if element.None? {
        r := topLevelItems;
      } else {
        r := [];
      }
    }

    /** `add`: one new item at the end; nothing is killed. */
    method Add(process: RunningProcess)
      modifies this
      ensures topLevelItems == old(topLevelItems) + [TreeItemFor(process)]
      ensures killed == old(killed)
    {
      topLevelItems := topLevelItems + [TreeItemFor(process)];
    }

    /** `remove`: kill and delete the first item with that id; an unknown id changes nothing. */
    method Remove(id: string)
      modifies this
      ensures topLevelItems == RemoveFirst(old(topLevelItems), id)
      ensures var i := FindIndexById(old(topLevelItems), id);
        killed == old(killed) + (if i == -1 then [] else [old(topLevelItems)[i].runningPS.process])
    {
      var index := FindIndexById(topLevelItems, id);
      if index != -1 {
        killed := killed + [topLevelItems[index].runningPS.process];
        topLevelItems := topLevelItems[..index] + topLevelItems[index + 1..];
      }
    }
  }
}
