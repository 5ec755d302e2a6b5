/** What the two scrapers share: the fields of a scraped JSON record, the content table they
    insert into, and the set of external ids already stored for a platform. */
module Scraping {
  import opened Common
  import opened Models

  /** A key of a scraped JSON record: missing, explicitly `null`, or holding a value. */
  datatype Field<T> = Absent | Null | Present(value: T)

  /** `record.get(key, default)`. */
  function Get<T>(f: Field<T>, default: T): Option<T>
  {
    match f
    case Absent => Some(default)
    case Null => None
    case Present(v) => Some(v)
  }

  /** `record.get(key)`. */
  function GetOpt<T>(f: Field<T>): Option<T>
  {
    if f.Present? then Some(f.value) else None
  }

  /** `record.get(key, 0) or 0` for a count. */
  function Tally(f: Field<nat>): nat
  {
    if f.Present? then f.value else 0
  }

  /** `record.get(key, 0) or 0.0` for a duration, kept in its printed form: a missing,
      `null` or zero value becomes `0.0`. */
  function Duration(f: Field<string>): string
  {
    if f.Present? && f.value != "0" && f.value != "0.0" then f.value else "0.0"
  }

  /** `str(record.get(key, []))` for a list held in its printed form. */
  function Printed(f: Field<string>): string
  {
    match f
    case Absent => "[]"
    case Null => "None"
    case Present(v) => v
  }

  /** The external ids stored for a platform
      (`select(ContentItem.external_id).where(ContentItem.platform_id == id)`). */
  function ExternalIdsOf(items: seq<ContentItem>, platformId: int): (r: set<string>)
    ensures forall e :: e in r <==> exists k :: 0 <= k < |items| && items[k].platformId == platformId
                                                    && items[k].externalId == e
  {
    if items == [] then {}
    else
      var init := items[..|items| - 1];
      var r0 := ExternalIdsOf(init, platformId);
      var last := items[|items| - 1];
      assert forall k :: 0 <= k < |init| ==> init[k] == items[k];
      r0 + (if last.platformId == platformId then {last.externalId} else {})
  }

  /** Rows inserted one after another from `firstId` on: each gets the next primary key. */
  function Stored(drafts: seq<ContentItem>, firstId: int): (r: seq<ContentItem>)
  {
    seq(|drafts|, k requires 0 <= k < |drafts| => drafts[k].(id := firstId + k))
  }

  lemma StoredSnoc(drafts: seq<ContentItem>, d: ContentItem, firstId: int)
    ensures Stored(drafts + [d], firstId) == Stored(drafts, firstId) + [d.(id := firstId + |drafts|)]
  {
  }

  /** The keys below `bound` are distinct and so are the fresh ones: appending rows keyed from
      `bound` on keeps every key distinct and below `bound + |drafts|`. */
  lemma StoredKeepsKeys(items: seq<ContentItem>, drafts: seq<ContentItem>, bound: int)
    requires DistinctIds(items) && forall k :: 0 <= k < |items| ==> items[k].id < bound
    ensures var all := items + Stored(drafts, bound);
      DistinctIds(all) && forall k :: 0 <= k < |all| ==> all[k].id < bound + |drafts|
  {
    var all := items + Stored(drafts, bound);
    forall i, j | 0 <= i < j < |all| ensures all[i].id != all[j].id {
      if j >= |items| {
        assert all[j].id == bound + (j - |items|);
        if i >= |items| {
          assert all[i].id == bound + (i - |items|);
        }
      }
    }
  }

  /** The content table: its rows and the primary key the next insert receives. */
  class ContentTable {
    var items: seq<ContentItem>
    var nextId: int

    /** Primary keys are distinct and all below the next one. */
    ghost predicate Valid()
      reads this
    {
      DistinctIds(items) && forall k :: 0 <= k < |items| ==> items[k].id < nextId
    }

    constructor ()
      ensures items == [] && nextId == 1 && Valid()
    {
      items := [];
      nextId := 1;
    }

    /** Collects the stored external ids of a platform into a set, row by row. */
    method ExternalIds(platformId: int) returns (ids: set<string>)
      ensures ids == ExternalIdsOf(items, platformId)
    {
      ids := {};
      var k := 0;
      while k < |items|
        invariant 0 <= k <= |items|
        invariant ids == ExternalIdsOf(items[..k], platformId)
      {
        assert items[..k + 1][..k] == items[..k];
        if items[k].platformId == platformId {
          ids := ids + {items[k].externalId};
        }
        k := k + 1;
      }
      assert items[..k] == items;
    }

    /** `db.add(item); db.commit(); db.refresh(item)`: the row is stored under the next key. */
    method Insert(item: ContentItem) returns (stored: ContentItem)
      requires Valid()
      modifies this
      ensures stored == item.(id := old(nextId))
      ensures items == old(items) + [stored] && nextId == old(nextId) + 1
      ensures Valid()
    {
      stored := item.(id := nextId);
      StoredKeepsKeys(items, [item], nextId);
      assert Stored([item], nextId) == [stored];
      items := items + [stored];
      nextId := nextId + 1;
    }

    /** Adds the rows in order and commits them together. */
    method InsertAll(drafts: seq<ContentItem>) returns (stored: seq<ContentItem>)
      requires Valid()
      modifies this
      ensures stored == Stored(drafts, old(nextId))
      ensures items == old(items) + stored && nextId == old(nextId) + |drafts|
      ensures Valid()
    {
      stored := [];
      var k := 0;
      while k < |drafts|
        invariant 0 <= k <= |drafts| && Valid()
        invariant stored == Stored(drafts[..k], old(nextId))
        invariant items == old(items) + stored && nextId == old(nextId) + k
      {
        var row := Insert(drafts[k]);
        StoredSnoc(drafts[..k], drafts[k], old(nextId));
        assert drafts[..k + 1] == drafts[..k] + [drafts[k]];
        stored := stored + [row];
        k := k + 1;
      }
      assert drafts[..k] == drafts;
    }
  }
}
