/** The content catalog of the system prompt (`_build_content_catalog` in
    backend/services/ai_chat.py): one line per item of the creator, in the order the
    query returns them (newest first), each with its platform, date, best available
    summary and engagement. */
module Catalog {
  import opened Common
  import opened Dates
  import opened Models
  import opened Sorting

  const NoContentAvailable := "No content available."

  /** `item.summary or item.title or item.external_id` */
  function CatalogSummary(item: ContentItem): (r: string)
    ensures Truthy(item.summary) ==> r == item.summary.value
    ensures !Truthy(item.summary) && Truthy(item.title) ==> r == item.title.value
    ensures !Truthy(item.summary) && !Truthy(item.title) ==> r == item.externalId
  {
    OrElse(item.summary, OrElse(item.title, item.externalId))
  }

  /** `item.timestamp.strftime('%Y-%m-%d') if item.timestamp else "?"` */
  function CatalogDate(item: ContentItem): string
  {
    if item.timestamp.Some? then IsoDay(item.timestamp.value) else "?"
  }

  /** The part of the line before the engagement figures. */
  function LineHead(item: ContentItem, platform: Option<Platform>): string
  {
    "- [" + PlatformLabel(item, platform) + "] [" + CatalogDate(item) + "] " + CatalogSummary(item) + " ("
  }

  /** The engagement figures, then the URL when there is one. */
  function LineTail(item: ContentItem): string
  {
    Thousands(item.views) + " views, " + Thousands(item.likes) + " likes"
    + (if Truthy(item.url) then " | " + item.url.value else "") + ")"
  }

  function CatalogLine(item: ContentItem, platform: Option<Platform>): string
  {
    LineHead(item, platform) + LineTail(item)
  }

  /** The lines `line` writes for the items, in order. */
  function LinesOf(items: seq<ContentItem>, platforms: map<int, Platform>,
                   line: (ContentItem, Option<Platform>) -> string): (r: seq<string>)
    ensures |r| == |items|
  {
    if items == [] then []
    else
      var last := items[|items| - 1];
      LinesOf(items[..|items| - 1], platforms, line) + [line(last, PlatformOf(last, platforms))]
  }

  function CatalogLines(items: seq<ContentItem>, platforms: map<int, Platform>): (r: seq<string>)
    ensures |r| == |items|
  {
    LinesOf(items, platforms, CatalogLine)
  }

  /** The items of the platforms, newest first (`order_by(ContentItem.timestamp.desc())`),
      items without a date last, ties in table order. */
  function Query(table: seq<ContentItem>, platformIds: seq<int>): seq<ContentItem>
  {
    SortDesc(OfPlatforms(table, platformIds), DateKey)
  }

  /** The query returns exactly the items of the platforms, newest first, each once. */
  lemma QueryFacts(table: seq<ContentItem>, platformIds: seq<int>)
    requires DistinctIds(table)
    ensures forall x :: x in Query(table, platformIds) <==> x in table && x.platformId in platformIds
    ensures SortedDesc(Query(table, platformIds), DateKey)
    ensures DistinctIds(Query(table, platformIds))
  {
    var found := OfPlatforms(table, platformIds);
    SortDescCorrect(found, DateKey);
    assert forall x :: x in Query(table, platformIds) <==> x in multiset(found);
    OfPlatformsDistinct(table, platformIds);
    assert DistinctTags(found, IdTag);
    SortDescKeepsDistinct(found, DateKey, IdTag);
  }

  /** The catalog of a creator whose platforms have the ids `platformIds`; `items` is the
      query's answer, the creator's items newest first. */
  function CatalogText(platformIds: seq<int>, items: seq<ContentItem>, platforms: map<int, Platform>): string
  {
    if platformIds == [] || items == [] then NoContentAvailable
    else Join(CatalogLines(items, platforms), "\n")
  }

  lemma {:induction false} LinesOfAt(items: seq<ContentItem>, platforms: map<int, Platform>,
                                     line: (ContentItem, Option<Platform>) -> string)
    ensures forall i :: 0 <= i < |items| ==>
              LinesOf(items, platforms, line)[i] == line(items[i], PlatformOf(items[i], platforms))
  {
    if items != [] {
      var init := items[..|items| - 1];
      LinesOfAt(init, platforms, line);
      assert forall i :: 0 <= i < |init| ==> init[i] == items[i];
    }
  }

  lemma CatalogLinesAt(items: seq<ContentItem>, platforms: map<int, Platform>)
    ensures forall i :: 0 <= i < |items| ==>
              CatalogLines(items, platforms)[i] == CatalogLine(items[i], PlatformOf(items[i], platforms))
  {
    LinesOfAt(items, platforms, CatalogLine);
  }

  lemma StartsWithConcat(a: string, b: string)
    ensures StartsWith(a + b, a)
  {
    assert (a + b)[..|a|] == a;
  }

  /** A non-empty catalog has exactly one line per item, in the items' order, once no
      field holds a line break: splitting the text at line breaks gives back line `i`
      for item `i`, which starts with the item's platform, date (or `?`) and summary. */
  lemma CatalogOneLinePerItem(platformIds: seq<int>, items: seq<ContentItem>, platforms: map<int, Platform>)
    requires platformIds != [] && items != []
    requires forall i :: 0 <= i < |items| ==> '\n' !in CatalogLine(items[i], PlatformOf(items[i], platforms))
    ensures |Split(CatalogText(platformIds, items, platforms), '\n')| == |items|
    ensures forall i :: 0 <= i < |items| ==>
              Split(CatalogText(platformIds, items, platforms), '\n')[i] == CatalogLine(items[i], PlatformOf(items[i], platforms))
              && StartsWith(Split(CatalogText(platformIds, items, platforms), '\n')[i], LineHead(items[i], PlatformOf(items[i], platforms)))
  {
    var lines := CatalogLines(items, platforms);
    CatalogLinesAt(items, platforms);
    assert "\n" == ['\n'];
    SplitJoin(lines, '\n');
    forall i | 0 <= i < |items|
      ensures StartsWith(CatalogLine(items[i], PlatformOf(items[i], platforms)), LineHead(items[i], PlatformOf(items[i], platforms)))
    {
      StartsWithConcat(LineHead(items[i], PlatformOf(items[i], platforms)), LineTail(items[i]));
    }
  }

  /** The catalog is the fixed sentence exactly when there are no platforms or no items:
      every catalog line starts with `- [`, so a non-empty catalog never reads as it. */
  lemma CatalogEmpty(platformIds: seq<int>, items: seq<ContentItem>, platforms: map<int, Platform>)
    ensures CatalogText(platformIds, items, platforms) == NoContentAvailable <==> platformIds == [] || items == []
  {
    if platformIds != [] && items != [] {
      var lines := CatalogLines(items, platforms);
      var p := PlatformOf(items[0], platforms);
      CatalogLinesAt(items, platforms);
      JoinStartsWithFirst(lines, "\n");
      StartsWithConcat(LineHead(items[0], p), LineTail(items[0]));
      assert lines[0][0] == LineHead(items[0], p)[0] == '-';
      assert CatalogText(platformIds, items, platforms)[0] == '-';
      assert NoContentAvailable[0] == 'N';
    }
  }

  lemma LinesOfStep(items: seq<ContentItem>, n: nat, platforms: map<int, Platform>,
                    line: (ContentItem, Option<Platform>) -> string)
    requires n < |items|
    ensures LinesOf(items[..n + 1], platforms, line)
            == LinesOf(items[..n], platforms, line) + [line(items[n], PlatformOf(items[n], platforms))]
  {
    assert items[..n + 1][..n] == items[..n];
  }

  /** The loop of `_build_content_catalog`: one line per item, in order. */
  method BuildLines(items: seq<ContentItem>, platforms: map<int, Platform>) returns (lines: seq<string>)
    ensures lines == CatalogLines(items, platforms)
  {
    lines := [];
    var n := 0;
    while n < |items|
      invariant 0 <= n <= |items|
      invariant lines == CatalogLines(items[..n], platforms)
    {
      LinesOfStep(items, n, platforms, CatalogLine);
      lines := lines + [CatalogLine(items[n], PlatformOf(items[n], platforms))];
      n := n + 1;
    }
    assert items[..n] == items;
  }

  /** `_build_content_catalog`: the query for the creator's items, then their lines. */
  method BuildCatalog(platformIds: seq<int>, table: seq<ContentItem>, platforms: map<int, Platform>)
    returns (text: string)
    ensures text == CatalogText(platformIds, Query(table, platformIds), platforms)
  {
    if platformIds == [] {
      return NoContentAvailable;
    }
    var items := Query(table, platformIds);
    if items == [] {
      return NoContentAvailable;
    }
    var lines := BuildLines(items, platforms);
    text := Join(lines, "\n");
  }
}
