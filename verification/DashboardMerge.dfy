/** Merging an edited chart into the dashboard it belongs to: which dashboard that is, and the in-place merge loops. */
module DashboardMerge {
  import opened WorkflowTypes

  /** A chart, metric or table; an item without an id matches another item without one. `points` tells a chart with data. */
  datatype Item = Item(id: Option<string>, points: nat, rest: string)

  function IdsOf(items: seq<Item>): set<Option<string>> {
    set item | item in items :: item.id
  }

  ghost predicate UniqueItems(items: seq<Item>) {
    forall i, j :: 0 <= i < j < |items| ==> items[i].id != items[j].id
  }

  // ---------------------------------------------------------------- what the loops compute

  /** The first index with the id, or the length. */
  function FirstIndex(items: seq<Item>, id: Option<string>): (i: nat)
    ensures i <= |items|
    ensures forall j :: 0 <= j < i ==> items[j].id != id
    ensures i < |items| ==> items[i].id == id
  {
    if items == [] || items[0].id == id then 0 else 1 + FirstIndex(items[1..], id)
  }

  /** Replaces the first item with the id, or appends. */
  function Put(items: seq<Item>, id: Option<string>, item: Item): seq<Item> {
    var i := FirstIndex(items, id);
    if i < |items| then items[i := item] else items + [item]
  }

  /** The item stands at the index of the first one with the id, and everything else is as before. */
  ghost predicate PutAt(items: seq<Item>, id: Option<string>, item: Item, after: seq<Item>, i: nat) {
    && i < |items| && items[i].id == id && (forall j :: 0 <= j < i ==> items[j].id != id)
    && after == items[..i] + [item] + items[i + 1..]
  }

  /** Whatever its own id is, the item took the place of the first one with the id, or else it was appended. */
  ghost predicate IsPut(items: seq<Item>, id: Option<string>, item: Item, after: seq<Item>) {
    if id in IdsOf(items) then exists i: nat :: PutAt(items, id, item, after, i) else after == items + [item]
  }

  lemma PutIsPut(items: seq<Item>, id: Option<string>, item: Item)
    ensures IsPut(items, id, item, Put(items, id, item))
  {
    var i := FirstIndex(items, id);
    if i < |items| {
      assert items[i].id in IdsOf(items);
      assert items[i := item] == items[..i] + [item] + items[i + 1..];
      assert PutAt(items, id, item, Put(items, id, item), i);
    }
  }

  function Merged(items: seq<Item>, added: seq<Item>): seq<Item> {
    if added == [] then items
    else
      var last := added[|added| - 1];
      Put(Merged(items, added[..|added| - 1]), last.id, last)
  }

  // ---------------------------------------------------------------- the loops

  class MergedDashboard {
    var charts: seq<Item>
    var metrics: seq<Item>
    var tables: seq<Item>

    /** The search loop over a list, with its `break`, and the replacement or the append after it. */
    method PutItem(items: seq<Item>, id: Option<string>, item: Item) returns (existing: seq<Item>)
      ensures existing == Put(items, id, item) && IsPut(items, id, item, existing)
    {
      PutIsPut(items, id, item);
      existing := items;
      var found := false;
      for j := 0 to |existing|
        invariant !found && existing == items
        invariant forall i :: 0 <= i < j ==> items[i].id != id
      {
        if existing[j].id == id {
          FirstIndexIs(items, id, j);
          existing := existing[j := item];
          found := true;
          break;
        }
      }
      if !found {
        FirstIndexIs(items, id, |items|);
        existing := existing + [item];
      }
    }

    method MergeItems(items: seq<Item>, added: seq<Item>) returns (existing: seq<Item>)
      ensures existing == Merged(items, added)
    {
      existing := items;
      for n := 0 to |added|
        invariant existing == Merged(items, added[..n])
      {
        existing := PutItem(existing, added[n].id, added[n]);
        assert added[..n + 1][..n] == added[..n];
      }
      assert added[..|added|] == added;
    }

    /** The new chart takes the place of the targeted one, unless it came back without data. */
    method ReplaceChart(target: Option<string>, added: seq<Item>) returns (note: bool)
      modifies `charts
      ensures note <==> added != [] && added[0].points == 0
      ensures if added == [] || note then charts == old(charts) else IsPut(old(charts), target, added[0], charts)
    {
      if added == [] {
        return false;
      }
      if added[0].points == 0 {
        return true;
      }
      charts := PutItem(charts, target, added[0]);
      return false;
    }

    /** The whole merge of one chart modification. */
    method Apply(target: Option<string>, newCharts: seq<Item>, newMetrics: seq<Item>, newTables: seq<Item>)
      returns (note: bool)
      modifies this
      ensures note <==> newCharts != [] && newCharts[0].points == 0
      ensures if newCharts == [] || note then charts == old(charts) else IsPut(old(charts), target, newCharts[0], charts)
      ensures metrics == Merged(old(metrics), newMetrics)
      ensures tables == Merged(old(tables), newTables)
    {
      note := ReplaceChart(target, newCharts);
      metrics := MergeItems(metrics, newMetrics);
      tables := MergeItems(tables, newTables);
    }
  }

  lemma FirstIndexIs(items: seq<Item>, id: Option<string>, i: nat)
    requires i <= |items| && forall j :: 0 <= j < i ==> items[j].id != id
    requires i < |items| ==> items[i].id == id
    ensures FirstIndex(items, id) == i
  {
  }

  // ---------------------------------------------------------------- what the merge means

  /** The last of the new items with an id: the one that stays. */
  function Winner(added: seq<Item>, id: Option<string>): (item: Item)
    requires id in IdsOf(added)
    ensures item in added && item.id == id
  {
    var last := added[|added| - 1];
    if last.id == id then last
    else
      assert added == added[..|added| - 1] + [last];
      Winner(added[..|added| - 1], id)
  }

  /** The value a merge leaves at the index of an old item. */
  function Kept(items: seq<Item>, added: seq<Item>, i: nat): Item
    requires i < |items|
  {
    if items[i].id in IdsOf(added) && FirstIndex(items, items[i].id) == i then Winner(added, items[i].id) else items[i]
  }

  /** An item that a merge appended: the last new one of an id that was not there. */
  ghost predicate Appended(items: seq<Item>, added: seq<Item>, m: seq<Item>, i: nat)
    requires i < |m|
  {
    && m[i].id !in IdsOf(items) && m[i].id in IdsOf(added) && m[i] == Winner(added, m[i].id)
    && FirstIndex(m, m[i].id) == i
  }

  /**
   * Item by item: every old item keeps its index and its id; only the first one of a merged id is replaced, by the
   * last new item with that id; what is appended are last new items, too, one for each id.
   */
  ghost predicate IsMerge(items: seq<Item>, added: seq<Item>, m: seq<Item>) {
    && |items| <= |m|
    && IdsOf(m) == IdsOf(items) + IdsOf(added)
    && (forall i :: 0 <= i < |items| ==> m[i].id == items[i].id)
    && (forall i :: 0 <= i < |items| ==> m[i] == Kept(items, added, i))
    && (forall i :: |items| <= i < |m| ==> Appended(items, added, m, i))
  }

  /** Replacing the item at an index by one with the same id moves no first index. */
  lemma SameIdsSameFirst(a: seq<Item>, b: seq<Item>, id: Option<string>)
    requires |a| <= |b| && forall i :: 0 <= i < |a| ==> a[i].id == b[i].id
    requires id in IdsOf(a)
    ensures FirstIndex(a, id) == FirstIndex(b, id) < |a|
  {
    var item :| item in a && item.id == id;
    var k :| 0 <= k < |a| && a[k] == item;
    var i := FirstIndex(a, id);
    assert i <= k;
    FirstIndexIs(b, id, i);
  }

  lemma PutKeepsIds(items: seq<Item>, item: Item)
    ensures var after := Put(items, item.id, item);
            && |items| <= |after|
            && IdsOf(after) == IdsOf(items) + {item.id}
            && (forall i :: 0 <= i < |items| ==> after[i].id == items[i].id)
            && (|after| == |items| <==> item.id in IdsOf(items))
  {
    var after, i := Put(items, item.id, item), FirstIndex(items, item.id);
    assert item in after by {
      assert after[i] == item;
    }
    forall id | id in IdsOf(items)
      ensures id in IdsOf(after)
    {
      var k :| 0 <= k < |items| && items[k].id == id;
      assert after[k].id == id && after[k] in after;
    }
    if item.id in IdsOf(items) {
      var k :| 0 <= k < |items| && items[k].id == item.id;
      assert i <= k;
    }
  }

  lemma {:induction false} MergedIsMerge(items: seq<Item>, added: seq<Item>)
    ensures IsMerge(items, added, Merged(items, added))
  {
    if added == [] {
      assert IdsOf(added) == {};
    } else {
      var n := |added| - 1;
      var before, last := added[..n], added[n];
      var m := Merged(items, before);
      MergedIsMerge(items, before);
      assert added == before + [last];
      assert IdsOf(added) == IdsOf(before) + {last.id};
      PutKeepsIds(m, last);
      PutIsMerge(items, before, m, last);
    }
  }

  lemma IdsExtend(before: seq<Item>, last: Item)
    ensures IdsOf(before + [last]) == IdsOf(before) + {last.id}
  {
  }

  lemma WinnerOf(before: seq<Item>, last: Item, id: Option<string>)
    requires id in IdsOf(before + [last])
    ensures id == last.id || id in IdsOf(before)
    ensures Winner(before + [last], id) == if id == last.id then last else Winner(before, id)
  {
    assert (before + [last])[..|before|] == before;
    IdsExtend(before, last);
  }

  lemma OldItem(items: seq<Item>, before: seq<Item>, m: seq<Item>, last: Item, i: nat)
    requires i < |items| <= |m| && forall j :: 0 <= j < |items| ==> m[j].id == items[j].id
    requires m[i] == Kept(items, before, i)
    ensures Put(m, last.id, last)[i] == Kept(items, before + [last], i)
  {
    hide IdsOf, Winner;
    IdsExtend(before, last);
    InIds(items, i);
    SameIdsSameFirst(items, m, items[i].id);
    if items[i].id in IdsOf(before + [last]) {
      WinnerOf(before, last, items[i].id);
    }
  }

  lemma InIds(items: seq<Item>, i: nat)
    requires i < |items|
    ensures items[i].id in IdsOf(items)
  {
  }

  lemma NewItem(items: seq<Item>, before: seq<Item>, m: seq<Item>, last: Item, i: nat)
    requires |items| <= i < |Put(m, last.id, last)|
    requires |items| <= |m| && IdsOf(items) <= IdsOf(m)
    requires i < |m| ==> Appended(items, before, m, i)
    ensures Appended(items, before + [last], Put(m, last.id, last), i)
  {
    hide IdsOf, Winner;
    var after := Put(m, last.id, last);
    IdsExtend(before, last);
    PutKeepsIds(m, last);
    WinnerOf(before, last, after[i].id);
    if i < |m| {
      InIds(m, i);
      SameIdsSameFirst(m, after, m[i].id);
    } else {
      FirstIndexIs(after, last.id, i);
    }
  }

  lemma PutIsMerge(items: seq<Item>, before: seq<Item>, m: seq<Item>, last: Item)
    requires IsMerge(items, before, m)
    ensures IsMerge(items, before + [last], Put(m, last.id, last))
  {
    hide IdsOf, Winner, Kept, Appended, FirstIndex, Put;
    var after := Put(m, last.id, last);
    PutKeepsIds(m, last);
    IdsExtend(before, last);
    forall i | 0 <= i < |items|
      ensures after[i] == Kept(items, before + [last], i)
    {
      OldItem(items, before, m, last, i);
    }
    forall i | |items| <= i < |after|
      ensures Appended(items, before + [last], after, i)
    {
      NewItem(items, before, m, last, i);
    }
  }

  /** An item whose id is not merged stays what and where it is. */
  lemma {:induction false} OthersStay(items: seq<Item>, added: seq<Item>, i: nat)
    requires i < |items| && items[i].id !in IdsOf(added)
    ensures i < |Merged(items, added)| && Merged(items, added)[i] == items[i]
  {
    MergedIsMerge(items, added);
  }

  lemma {:induction false} MergeKeepsUnique(items: seq<Item>, added: seq<Item>)
    requires UniqueItems(items)
    ensures UniqueItems(Merged(items, added))
  {
    var m := Merged(items, added);
    MergedIsMerge(items, added);
    forall i, j | 0 <= i < j < |m|
      ensures m[i].id != m[j].id
    {
      if j < |items| {
        assert items[i].id != items[j].id;
      } else {
        assert Appended(items, added, m, j);
      }
    }
  }

  lemma MergedIds(items: seq<Item>, added: seq<Item>)
    ensures IdsOf(Merged(items, added)) == IdsOf(items) + IdsOf(added)
  {
    MergedIsMerge(items, added);
  }

  lemma PutGrowth(ids: set<Option<string>>, before: set<Option<string>>, id: Option<string>)
    ensures |before + {id} - ids| == |before - ids| + if id in ids + before then 0 else 1
  {
    if id in ids + before {
      assert before + {id} - ids == before - ids;
    } else {
      assert before + {id} - ids == (before - ids) + {id};
    }
  }

  /** The list grows by exactly the number of distinct new ids that were absent. */
  lemma {:induction false} MergeGrowth(items: seq<Item>, added: seq<Item>)
    ensures |Merged(items, added)| == |items| + |IdsOf(added) - IdsOf(items)|
  {
    if added == [] {
      assert IdsOf(added) - IdsOf(items) == {};
    } else {
      var n := |added| - 1;
      MergeGrowth(items, added[..n]);
      GrowthStep(items, added[..n], added[n]);
      assert added == added[..n] + [added[n]];
    }
  }

  lemma GrowthStep(items: seq<Item>, before: seq<Item>, last: Item)
    requires |Merged(items, before)| == |items| + |IdsOf(before) - IdsOf(items)|
    ensures |Put(Merged(items, before), last.id, last)| == |items| + |IdsOf(before + [last]) - IdsOf(items)|
  {
    hide IdsOf, Put, FirstIndex, Merged;
    MergedIds(items, before);
    PutSize(Merged(items, before), last);
    IdsExtend(before, last);
    PutGrowth(IdsOf(items), IdsOf(before), last.id);
  }

  lemma PutSize(items: seq<Item>, item: Item)
    ensures |Put(items, item.id, item)| == |items| + if item.id in IdsOf(items) then 0 else 1
  {
    PutKeepsIds(items, item);
  }

  /** Merging the same items once more changes nothing, duplicate ids on either side included. */
  lemma MergeIsIdempotent(items: seq<Item>, added: seq<Item>)
    ensures Merged(Merged(items, added), added) == Merged(items, added)
  {
    hide IdsOf, Winner, Merged, FirstIndex;
    var m := Merged(items, added);
    var again := Merged(m, added);
    MergedIsMerge(items, added);
    MergedIsMerge(m, added);
    MergeGrowth(m, added);
    assert IdsOf(added) - IdsOf(m) == {};
    forall i | 0 <= i < |m|
      ensures again[i] == m[i]
    {
      assert again[i] == Kept(m, added, i);
      if i < |items| {
        InIds(items, i);
        SameIdsSameFirst(items, m, items[i].id);
        assert m[i] == Kept(items, added, i);
      } else {
        assert Appended(items, added, m, i);
      }
    }
  }

  // ---------------------------------------------------------------- which dashboard is edited

  datatype Cached = Cached(id: string, charts: seq<Item>, tables: seq<Item>, metrics: seq<Item>)

  predicate HasItem(items: seq<Item>, id: string) {
    exists i :: 0 <= i < |items| && items[i].id == Some(id)
  }

  /** A missing and an empty component id are found nowhere. */
  predicate ContainsComponent(dashboard: Cached, component: Option<string>) {
    && component.Some? && component.value != ""
    && (HasItem(dashboard.charts, component.value) || HasItem(dashboard.tables, component.value) ||
        HasItem(dashboard.metrics, component.value))
  }

  predicate Names(target: Option<string>, dashboard: Cached) {
    target.Some? && target.value != "" && dashboard.id == target.value
  }

  /**
   * The ordered cascade: the named dashboard, else the first that contains the component, else the only one, else
   * the last one. So an edit always lands in an existing dashboard unless there is none at all.
   */
  method ResolveDashboard(cache: seq<Cached>, target: Option<string>, component: Option<string>)
    returns (found: Option<nat>)
    requires forall i, j :: 0 <= i < j < |cache| ==> cache[i].id != cache[j].id
    ensures found.None? <==> cache == []
    ensures found.Some? ==> found.value < |cache|
    ensures forall i :: 0 <= i < |cache| && Names(target, cache[i]) ==> found == Some(i)
    ensures (forall i :: 0 <= i < |cache| ==> !Names(target, cache[i])) ==>
              forall i :: 0 <= i < |cache| && ContainsComponent(cache[i], component) ==>
                found.Some? && found.value <= i && ContainsComponent(cache[found.value], component)
    ensures found.Some? && !Names(target, cache[found.value]) && !ContainsComponent(cache[found.value], component) ==>
              found.value == |cache| - 1
  {
    for i := 0 to |cache|
      invariant forall j :: 0 <= j < i ==> !Names(target, cache[j])
    {
      if Names(target, cache[i]) {
        return Some(i);
      }
    }
    for i := 0 to |cache|
      invariant forall j :: 0 <= j < i ==> !ContainsComponent(cache[j], component)
    {
      if ContainsComponent(cache[i], component) {
        return Some(i);
      }
    }
    if |cache| == 1 {
      return Some(0);
    }
    found := None;
    for i := 0 to |cache|
      invariant found == if i == 0 then None else Some(i - 1)
    {
      found := Some(i);
    }
  }
}
