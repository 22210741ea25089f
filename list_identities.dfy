/**
 * The identities view (`ListIdentitiesProvider`): the fetched identities become tree items,
 * and deleting an identity removes its item once the CLI's output echoes the id.
 */
module ListIdentities {
  import opened Wrappers
  import opened JsText
  import opened JsDict
  import opened Helper
  import OryDelete

  /** An identity as `ory list identities --format json` returns it, already parsed. */
  datatype RawIdentity = RawIdentity(id: string, state: string, schemaId: string, schemaUrl: string, traits: Dict<string>)

  /** The record an item is built from; `traits` is the value of the first trait, if any. */
  datatype Identity = Identity(id: string, state: string, traits: Option<string>, schemaId: string, schemaUrl: string)

  datatype IdentitiesTreeItem = IdentitiesTreeItem(identity: Identity, tooltip: string)

  /** `${value}` of a possibly missing value. */
  function Shown(v: Option<string>): string
  {
    if v.None? then "undefined" else v.value
  }

  /** The mapping in `init`: the first trait key in insertion order supplies the traits value. */
  function ToIdentity(raw: RawIdentity): (r: Identity)
    ensures r.id == raw.id && r.state == raw.state && r.schemaId == raw.schemaId && r.schemaUrl == raw.schemaUrl
    ensures r.traits.None? <==> raw.traits == []
    ensures raw.traits != [] ==> r.traits == Some(raw.traits[0].1)
  {
    var traitsKeys := Keys(raw.traits);
    if traitsKeys == [] then Identity(raw.id, raw.state, None, raw.schemaId, raw.schemaUrl)
    else Identity(raw.id, raw.state, Lookup(raw.traits, traitsKeys[0]), raw.schemaId, raw.schemaUrl)
  }

  /** The lines of an item's tooltip. */
  function TooltipFields(identity: Identity): seq<string>
  {
    ["ID: " + identity.id, "State: " + identity.state, "Traits: " + Shown(identity.traits),
     "Schema ID: " + identity.schemaId, "Schema URL: " + identity.schemaUrl]
  }

  /** The item's constructor: the tooltip lists id, state, traits and schema, one per line. */
  function ItemFor(identity: Identity): (r: IdentitiesTreeItem)
    ensures r.identity == identity
  {
    IdentitiesTreeItem(identity, Join(TooltipFields(identity), "\n"))
  }

  /** When no field holds a line break, the tooltip shows the five fields on five lines. */
  lemma TooltipLines(identity: Identity)
    requires '\n' !in identity.id && '\n' !in identity.state && '\n' !in Shown(identity.traits)
    requires '\n' !in identity.schemaId && '\n' !in identity.schemaUrl
    ensures Split(ItemFor(identity).tooltip, '\n') ==
      ["ID: " + identity.id, "State: " + identity.state, "Traits: " + Shown(identity.traits),
       "Schema ID: " + identity.schemaId, "Schema URL: " + identity.schemaUrl]
  {
    var parts := TooltipFields(identity);
    SplitJoin(parts, '\n');
  }

  /** The items `init` builds, in fetch order. */
  function Items(identities: seq<RawIdentity>): (r: seq<IdentitiesTreeItem>)
    ensures |r| == |identities|
    ensures forall i :: 0 <= i < |r| ==> r[i] == ItemFor(ToIdentity(identities[i]))
  {
    seq(|identities|, i requires 0 <= i < |identities| => ItemFor(ToIdentity(identities[i])))
  }

  /** `findIndex` by id: the first item with that id, or -1. */
  function FindIndexById(items: seq<IdentitiesTreeItem>, id: string): (r: int)
    ensures -1 <= r < |items|
    ensures r == -1 <==> forall i :: 0 <= i < |items| ==> items[i].identity.id != id
    ensures r >= 0 ==> items[r].identity.id == id && forall i :: 0 <= i < r ==> items[i].identity.id != id
  {
    if items == [] then -1
    else if items[0].identity.id == id then 0
    else
      var r := FindIndexById(items[1..], id);
      if r == -1 then -1 else r + 1
  }

  /** The list after `delete`: the first item with that id goes, and only when the output echoes it. */
  function AfterDelete(items: seq<IdentitiesTreeItem>, id: string, output: string): seq<IdentitiesTreeItem>
  {
    var index := FindIndexById(items, id);
    if !Contains(output, id) || index == -1 then items else items[..index] + items[index + 1..]
  }

  /** The id an item is found and removed by. */
  function ItemId(item: IdentitiesTreeItem): string
  {
    item.identity.id
  }

  /** The items carrying a given id, counted. */
  function CountId(items: seq<IdentitiesTreeItem>, id: string): nat
  {
    CountKey(items, ItemId, id)
  }

  /**
   * A delete whose output echoes the id removes exactly one item with that id when there is
   * one; every other id keeps its count; otherwise the list is unchanged.
   */
  lemma DeleteRemovesAtMostOne(items: seq<IdentitiesTreeItem>, id: string, output: string, other: string)
    ensures !Contains(output, id) ==> AfterDelete(items, id, output) == items
    ensures |AfterDelete(items, id, output)| == |items| - (if Contains(output, id) && CountId(items, id) > 0 then 1 else 0)
    ensures CountId(AfterDelete(items, id, output), other) ==
      if other == id && Contains(output, id) && CountId(items, id) > 0 then CountId(items, id) - 1
      else CountId(items, other)
  {
    var i := FindIndexById(items, id);
    if i == -1 {
      CountKeyAbsent(items, ItemId, id);
    } else {
      assert items == items[..i] + [items[i]] + items[i + 1..];
      CountKeySplit(items[..i] + [items[i]], items[i + 1..], ItemId, other);
      CountKeySplit(items[..i], [items[i]], ItemId, other);
      CountKeySplit(items[..i], items[i + 1..], ItemId, other);
      CountKeySplit(items[..i] + [items[i]], items[i + 1..], ItemId, id);
      CountKeySplit(items[..i], [items[i]], ItemId, id);
      assert CountId([items[i]], id) == 1;
    }
  }

  /** `ListIdentitiesProvider`: the root items of the view. */
  class ListIdentitiesProvider {
    var topLevelItems: seq<IdentitiesTreeItem>

    /** The constructor starts an asynchronous `init`; until it completes (`Init`) there are no items. */
    constructor ()
      ensures topLevelItems == []
    {
      topLevelItems := [];
    }

    /** `init`: a failed fetch leaves an empty list, otherwise one item per identity in order. */
    method Init(fetched: Option<seq<RawIdentity>>)
      modifies this
      ensures topLevelItems == if fetched.None? then [] else Items(fetched.value)
    {
      var identities := if fetched.None? then [] else fetched.value;
      topLevelItems := Items(identities);
    }

    /** `refresh`: the list is emptied, then filled again from a new fetch. */
    method Refresh(fetched: Option<seq<RawIdentity>>)
      modifies this
      ensures topLevelItems == if fetched.None? then [] else Items(fetched.value)
    {
      topLevelItems := [];
      Init(fetched);
    }

    /** `getChildren`: the items at the root, nothing under an item. */
    method GetChildren(element: Option<IdentitiesTreeItem>) returns (r: seq<IdentitiesTreeItem>)
      ensures element.None? ==> r == topLevelItems
      ensures element.Some? ==> r == []
    {
      if element.None? {
        r := topLevelItems;
      } else {
        r := [];
      }
    }

    /**
     * `delete`: deletes the identity through the CLI, and once the command has closed with
     * output naming the id, removes the first item with that id.
     */
    method Delete(id: string, events: seq<ProcessEvent>) returns (argv: seq<string>)
      modifies this
      ensures argv == OryDelete.DeleteArgv(OryDelete.IdentityDelete, [id])
      ensures Resolution(events).None? ==> topLevelItems == old(topLevelItems)
      ensures Resolution(events).Some? ==> topLevelItems == AfterDelete(old(topLevelItems), id, Resolution(events).value)
    {
      var val, effects;
      argv, val, effects := OryDelete.OryDeleteKind(OryDelete.IdentityDelete, [id], events);
      if val.None? {
        return;
      }
      if Contains(val.value, id) {
        var index := FindIndexById(topLevelItems, id);
        if index != -1 {
          topLevelItems := topLevelItems[..index] + topLevelItems[index + 1..];
        }
      }
    }
  }
}
