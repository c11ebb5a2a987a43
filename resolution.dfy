/** Resolving trigger IDs through the trigger map (MultiTriggerSequence.mapIDsToTriggers) and pairing
    menu names with resolved triggers (DrawMenu, DrawGameChoiceMenu). */
module Resolution {
  import opened SceneData

  type TriggerMap = map<string, Trigger>

  /** ObjectMap.get: the registered trigger, or None (null) when the ID is absent. */
  function Lookup(tm: TriggerMap, id: string): (r: Option<Trigger>)
    ensures r.Some? <==> id in tm
    ensures r.Some? ==> r.value == tm[id]
  {
    if id in tm then Some(tm[id]) else None
  }

  /** The entries one mapIDsToTriggers call appends: one per ID, in order, a missing ID giving None. */
  function Resolve(tm: TriggerMap, ids: seq<string>): (r: seq<Option<Trigger>>)
    ensures |r| == |ids|
    ensures forall i :: 0 <= i < |ids| ==> r[i] == Lookup(tm, ids[i])
  {
    if ids == [] then [] else Resolve(tm, ids[..|ids| - 1]) + [Lookup(tm, ids[|ids| - 1])]
  }

  /** Resolving never fails fast: a missing ID gives None at its own position and the IDs after it
      are still resolved. */
  lemma ResolveKeepsGoing(tm: TriggerMap, ids: seq<string>, k: nat)
    requires k < |ids| && ids[k] !in tm
    ensures Resolve(tm, ids)[k] == None
    ensures Resolve(tm, ids)[k + 1..] == Resolve(tm, ids[k + 1..])
  {
  }

  /** Pairs names[i] with entries[i]. */
  function Zip(names: seq<string>, entries: seq<Option<Trigger>>): (r: seq<MenuItem>)
    requires |names| == |entries|
    ensures |r| == |entries|
    ensures forall i :: 0 <= i < |r| ==> r[i] == MenuItem(names[i], entries[i])
  {
    if entries == [] then []
    else Zip(names[..|names| - 1], entries[..|entries| - 1]) + [MenuItem(names[|names| - 1], entries[|entries| - 1])]
  }

  /** The items a menu is built with, or None when the constructor runs past the end of `names`. */
  function MenuItems(tm: TriggerMap, ids: seq<string>, names: seq<string>): (r: Option<seq<MenuItem>>)
    ensures r.Some? <==> |names| >= |ids|
    ensures r.Some? ==> |r.value| == |ids|
    ensures r.Some? ==> forall i :: 0 <= i < |ids| ==> r.value[i] == MenuItem(names[i], Lookup(tm, ids[i]))
  {
    if |names| < |ids| then None else Some(Zip(names[..|ids|], Resolve(tm, ids)))
  }

  /** The constructor's two loops: resolve every item ID, then add one item per resolved trigger,
      indexing `names` with a counter. */
  method PairMenuItems(tm: TriggerMap, ids: seq<string>, names: seq<string>) returns (r: Option<seq<MenuItem>>)
    ensures r == MenuItems(tm, ids, names)
  {
    var menuItems := ResolveItems(tm, ids);
    r := NameItems(names, menuItems);
  }

  /** The first loop: one resolved entry per item ID, in order. */
  method ResolveItems(tm: TriggerMap, ids: seq<string>) returns (menuItems: seq<Option<Trigger>>)
    ensures menuItems == Resolve(tm, ids)
  {
    menuItems := [];
    var i := 0;
    while i < |ids|
      invariant 0 <= i <= |ids|
      invariant menuItems == Resolve(tm, ids[..i])
    {
      assert ids[..i + 1][..i] == ids[..i];
      menuItems := menuItems + [Lookup(tm, ids[i])];
      i := i + 1;
    }
    assert ids[..i] == ids;
  }

  /** The second loop: entry k is named names[k]; running past the end of `names` throws. */
  method NameItems(names: seq<string>, entries: seq<Option<Trigger>>) returns (r: Option<seq<MenuItem>>)
    ensures r.Some? <==> |names| >= |entries|
    ensures r.Some? ==> r.value == Zip(names[..|entries|], entries)
  {
    var items: seq<MenuItem> := [];
    var counter := 0;
    while counter < |entries|
      invariant 0 <= counter <= |entries| && counter <= |names|
      invariant |items| == counter
      invariant forall k :: 0 <= k < counter ==> items[k] == MenuItem(names[k], entries[k])
    {
      if counter >= |names| {
        return None;
      }
      items := items + [MenuItem(names[counter], entries[counter])];
      counter := counter + 1;
    }
    ghost var z := Zip(names[..|entries|], entries);
    assert |z| == |items| && forall k :: 0 <= k < |z| ==> z[k] == items[k];
    assert items == z;
    r := Some(items);
  }
}
