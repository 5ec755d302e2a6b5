/** The rows of the service's tables (backend/models/database.py) as values, and the
    Python truthiness rules the services apply to their optional fields. */
module Models {
  import opened Common
  import opened Dates

  /** `summaryGeneratedAt` is the stamp of the last complete analysis. */
  datatype Creator = Creator(id: int, name: string, summary: Option<string>, summaryGeneratedAt: Option<DateTime>)

  datatype Platform = Platform(id: int, creatorId: int, kind: string, handle: string)

  /** A scraped reel or video. `duration` holds the float's printed form, the only way
      the services use it. */
  datatype ContentItem = ContentItem(
    id: int, platformId: int, kind: string, externalId: string,
    url: Option<string>, title: Option<string>, caption: Option<string>,
    transcript: Option<string>, transcriptSource: Option<string>,
    timestamp: Option<DateTime>,
    likes: nat, comments: nat, views: nat, duration: string,
    tags: Option<string>, isEmbedded: bool, summary: Option<string>)

  /** A pre-computed knowledge document of one creator. */
  datatype Knowledge = Knowledge(creatorId: int, kind: string, content: string, generatedAt: DateTime, version: int)

  datatype ChatSession = ChatSession(id: int, creatorId: int, title: string)

  datatype ChatMessage = ChatMessage(sessionId: int, role: string, content: string)

  /** A text file the user attached to a chat message: `{"filename": …, "content": …}`. */
  datatype Attachment = Attachment(filename: string, content: string)

  /** An optional string counts as true when it is present and not empty. */
  predicate Truthy(o: Option<string>)
  {
    o.Some? && o.value != ""
  }

  /** `o or d`. */
  function OrElse(o: Option<string>, d: string): string
  {
    if Truthy(o) then o.value else d
  }

  /** `(o or "")`. */
  function Text(o: Option<string>): string
  {
    OrElse(o, "")
  }

  /** `db.get(Platform, item.platform_id)`. */
  function PlatformOf(item: ContentItem, platforms: map<int, Platform>): Option<Platform>
  {
    if item.platformId in platforms then Some(platforms[item.platformId]) else None
  }

  /** `f"{platform.type}:{platform.handle}" if platform else item.type` */
  function PlatformLabel(item: ContentItem, platform: Option<Platform>): string
  {
    if platform.Some? then platform.value.kind + ":" + platform.value.handle else item.kind
  }

  /** `db.get(ContentItem, id)` over a table whose ids are its primary keys. */
  function ItemById(table: seq<ContentItem>, id: int): (r: Option<ContentItem>)
    ensures r.Some? ==> r.value in table && r.value.id == id
    ensures r.None? ==> forall k :: 0 <= k < |table| ==> table[k].id != id
  {
    if table == [] then None else if table[0].id == id then Some(table[0]) else ItemById(table[1..], id)
  }

  /** The primary key of a table: no two rows share an id. */
  predicate DistinctIds(items: seq<ContentItem>)
  {
    forall i, j :: 0 <= i < j < |items| ==> items[i].id != items[j].id
  }

  /** The items of the given platforms, in table order
      (`where(col(ContentItem.platform_id).in_(platform_ids))`). */
  function OfPlatforms(table: seq<ContentItem>, platformIds: seq<int>): (r: seq<ContentItem>)
    ensures |r| <= |table|
    ensures forall x :: x in r <==> x in table && x.platformId in platformIds
  {
    if table == [] then []
    else (if table[0].platformId in platformIds then [table[0]] else []) + OfPlatforms(table[1..], platformIds)
  }

  lemma {:induction false} OfPlatformsDistinct(table: seq<ContentItem>, platformIds: seq<int>)
    requires DistinctIds(table)
    ensures DistinctIds(OfPlatforms(table, platformIds))
  {
    if table != [] {
      OfPlatformsDistinct(table[1..], platformIds);
      var rest := OfPlatforms(table[1..], platformIds);
      forall k | 0 <= k < |rest| ensures rest[k].id != table[0].id {
        assert rest[k] in table[1..];
      }
    }
  }

  /** Views as a sort key. */
  function ViewsKey(item: ContentItem): real
  {
    item.views as real
  }

  /** `item.timestamp or datetime.min` as a sort key. */
  function DateKey(item: ContentItem): real
  {
    if item.timestamp.Some? then Key(item.timestamp.value) else Key(MinDateTime)
  }

  function IdTag(item: ContentItem): int
  {
    item.id
  }

  /** `sum(f(i) for i in items)` */
  function SumOf(items: seq<ContentItem>, f: ContentItem -> nat): nat
  {
    if items == [] then 0 else SumOf(items[..|items| - 1], f) + f(items[|items| - 1])
  }

  /** The integer average `sum // len`, and 0 for no items (the `or 0` of an average over
      no rows, and the `if items else 0` of the profile). */
  function FloorAverage(items: seq<ContentItem>, f: ContentItem -> nat): nat
  {
    if items == [] then 0 else SumOf(items, f) / |items|
  }

  lemma {:induction false} SumOfBounds(items: seq<ContentItem>, f: ContentItem -> nat, lo: nat, hi: nat)
    requires forall x :: x in items ==> lo <= f(x) <= hi
    ensures |items| * lo <= SumOf(items, f) <= |items| * hi
  {
    if items != [] {
      var init := items[..|items| - 1];
      assert forall x :: x in init ==> x in items;
      SumOfBounds(init, f, lo, hi);
      var last := items[|items| - 1];
      assert last in items;
      assert SumOf(items, f) == SumOf(init, f) + f(last);
      AddOne(|init|, lo);
      AddOne(|init|, hi);
    }
  }

  lemma AddOne(n: nat, c: nat)
    ensures (n + 1) * c == n * c + c
  {
  }

  /** The average is the floor of the exact mean, and it lies between the smallest and
      the largest value: with every value in `lo..hi`, so is the average. */
  lemma FloorAverageFacts(items: seq<ContentItem>, f: ContentItem -> nat, lo: nat, hi: nat)
    requires forall x :: x in items ==> lo <= f(x) <= hi
    ensures items == [] ==> FloorAverage(items, f) == 0
    ensures items != [] ==>
      FloorAverage(items, f) * |items| <= SumOf(items, f) < (FloorAverage(items, f) + 1) * |items|
      && lo <= FloorAverage(items, f) <= hi
  {
    if items != [] {
      SumOfBounds(items, f, lo, hi);
      DivBetween(SumOf(items, f), |items|, lo, hi);
    }
  }

  lemma DivBetween(s: nat, n: nat, lo: nat, hi: nat)
    requires n > 0 && n * lo <= s <= n * hi
    ensures (s / n) * n <= s < (s / n + 1) * n
    ensures lo <= s / n <= hi
  {
    var q, r := s / n, s % n;
    assert s == q * n + r && r < n;
    assert (q + 1) * n == q * n + n;
    MulLess(lo, q + 1, n);
    MulLess(q, hi + 1, n);
    assert (hi + 1) * n == hi * n + n;
  }

  /** `a * n < b * n` with `n > 0` means `a < b`. */
  lemma MulLess(a: int, b: int, n: int)
    requires n > 0 && a * n < b * n
    ensures a < b
  {
    assert (b - a) * n == b * n - a * n;
  }
}
