/** The knowledge pipeline of backend/services/knowledge.py: `generate_all` runs the
    video summaries, then asks the language model for the creator's topic clusters,
    profile and style, saving each as a knowledge document, and reports its progress as
    a list of events. The database is the state of a `KnowledgeBase`; the language
    model and `json.loads` are parameters. */
module KnowledgeService {
  import opened Common
  import opened Models
  import opened Sorting
  import opened Dates
  import opened Summaries
  import opened Batching
  import Prompt
  import opened Catalog

  // ---------------------------------------------------------------------------
  // _save_knowledge: the upsert of a knowledge document
  // ---------------------------------------------------------------------------

  /** The row is the creator's document of the kind. */
  predicate IsDocument(row: Knowledge, creatorId: int, kind: string)
  {
    row.creatorId == creatorId && row.kind == kind
  }

  /** `select(CreatorKnowledge).where(creator_id == …, type == …).first()`, as a position. */
  function FirstDocument(rows: seq<Knowledge>, creatorId: int, kind: string): (r: Option<nat>)
    ensures r.Some? ==> r.value < |rows| && IsDocument(rows[r.value], creatorId, kind)
    ensures r.Some? ==> forall i :: 0 <= i < r.value ==> !IsDocument(rows[i], creatorId, kind)
    ensures r.None? ==> forall i :: 0 <= i < |rows| ==> !IsDocument(rows[i], creatorId, kind)
  {
    if rows == [] then None
    else if IsDocument(rows[0], creatorId, kind) then Some(0)
    else
      match FirstDocument(rows[1..], creatorId, kind)
      case None => None
      case Some(k) => Some(k + 1)
  }

  /** The table after saving `content` at the instant `now`: the existing document gets
      the content and the stamp, and its version goes up by one; otherwise a new document
      is appended with that stamp and version 1. */
  function Upserted(rows: seq<Knowledge>, creatorId: int, kind: string, content: string, now: DateTime): seq<Knowledge>
  {
    match FirstDocument(rows, creatorId, kind)
    case Some(i) => rows[i := rows[i].(content := content, generatedAt := now, version := rows[i].version + 1)]
    case None => rows + [Knowledge(creatorId, kind, content, now, 1)]
  }

  /** No creator has two documents of one kind. */
  ghost predicate OneDocumentPerKind(rows: seq<Knowledge>)
  {
    forall i, j :: 0 <= i < j < |rows| ==> !IsDocument(rows[j], rows[i].creatorId, rows[i].kind)
  }

  /** Saving overwrites the existing document in place, restamping it and bumping its
      version by exactly one, or appends one document stamped `now` with version 1; no
      other row changes. */
  lemma UpsertedRows(rows: seq<Knowledge>, creatorId: int, kind: string, content: string, now: DateTime)
    ensures var r := Upserted(rows, creatorId, kind, content, now);
      && ((exists i :: 0 <= i < |rows| && IsDocument(rows[i], creatorId, kind)) ==>
            && |r| == |rows|
            && (forall i :: 0 <= i < |rows| && !IsDocument(rows[i], creatorId, kind) ==> r[i] == rows[i])
            && (exists i :: 0 <= i < |rows| && IsDocument(rows[i], creatorId, kind)
                  && r[i] == rows[i].(content := content, generatedAt := now, version := rows[i].version + 1)))
      && ((forall i :: 0 <= i < |rows| ==> !IsDocument(rows[i], creatorId, kind)) ==>
            r == rows + [Knowledge(creatorId, kind, content, now, 1)])
  {
    match FirstDocument(rows, creatorId, kind)
    case Some(i) =>
    case None =>
  }

  /** Saving never creates a second document of a kind. */
  lemma UpsertedKeepsOnePerKind(rows: seq<Knowledge>, creatorId: int, kind: string, content: string, now: DateTime)
    requires OneDocumentPerKind(rows)
    ensures OneDocumentPerKind(Upserted(rows, creatorId, kind, content, now))
  {
    var r := Upserted(rows, creatorId, kind, content, now);
    match FirstDocument(rows, creatorId, kind)
    case Some(p) =>
      assert forall i :: 0 <= i < |rows| ==> r[i].creatorId == rows[i].creatorId && r[i].kind == rows[i].kind;
    case None =>
      forall i, j | 0 <= i < j < |r| ensures !IsDocument(r[j], r[i].creatorId, r[i].kind) {
        if j == |rows| {
          assert r[i] == rows[i];
        }
      }
  }

  /** After saving, the document the prompt builder reads for the kind is the new
      content, and every other document it reads is as it was. */
  lemma UpsertedLookup(rows: seq<Knowledge>, creatorId: int, kind: string, content: string, now: DateTime,
                       c: int, k: string)
    requires OneDocumentPerKind(rows)
    ensures Prompt.KnowledgeOf(Upserted(rows, creatorId, kind, content, now), creatorId, kind) == Some(content)
    ensures !(c == creatorId && k == kind) ==>
              Prompt.KnowledgeOf(Upserted(rows, creatorId, kind, content, now), c, k) == Prompt.KnowledgeOf(rows, c, k)
  {
    var r := Upserted(rows, creatorId, kind, content, now);
    match FirstDocument(rows, creatorId, kind)
    case Some(p) =>
      LookupAtOnly(r, p, creatorId, kind);
      assert forall i :: 0 <= i < |rows| && i != p ==> r[i] == rows[i];
      if !(c == creatorId && k == kind) {
        LookupIgnores(rows, r, p, c, k);
      }
    case None =>
      assert r[..|r| - 1] == rows;
  }

  /** The document of a kind held at one position only is the one read. */
  lemma {:induction false} LookupAtOnly(rows: seq<Knowledge>, p: nat, c: int, k: string)
    requires p < |rows| && IsDocument(rows[p], c, k)
    requires forall i :: 0 <= i < |rows| && i != p ==> !IsDocument(rows[i], c, k)
    ensures Prompt.KnowledgeOf(rows, c, k) == Some(rows[p].content)
  {
    if p < |rows| - 1 {
      LookupAtOnly(rows[..|rows| - 1], p, c, k);
    }
  }

  /** Rewriting position `p` with a row of the same kind leaves the other kinds' reads
      alone. */
  lemma {:induction false} LookupIgnores(rows: seq<Knowledge>, r: seq<Knowledge>, p: nat, c: int, k: string)
    requires |r| == |rows| && p < |rows|
    requires forall i :: 0 <= i < |rows| && i != p ==> r[i] == rows[i]
    requires IsDocument(r[p], rows[p].creatorId, rows[p].kind) && !IsDocument(rows[p], c, k)
    ensures Prompt.KnowledgeOf(r, c, k) == Prompt.KnowledgeOf(rows, c, k)
  {
    if rows != [] {
      var n := |rows| - 1;
      if p < n {
        LookupIgnores(rows[..n], r[..n], p, c, k);
      } else {
        assert r[..n] == rows[..n];
      }
    }
  }

  /** The table after saving the documents `docs` (kind, content) one after another. */
  function SaveAll(rows: seq<Knowledge>, creatorId: int, docs: seq<(string, string)>, now: DateTime): seq<Knowledge>
  {
    if docs == [] then rows
    else
      var last := docs[|docs| - 1];
      Upserted(SaveAll(rows, creatorId, docs[..|docs| - 1], now), creatorId, last.0, last.1, now)
  }

  lemma SaveAllSnoc(rows: seq<Knowledge>, creatorId: int, docs: seq<(string, string)>, kind: string, content: string,
                    now: DateTime)
    ensures SaveAll(rows, creatorId, docs + [(kind, content)], now)
            == Upserted(SaveAll(rows, creatorId, docs, now), creatorId, kind, content, now)
  {
    assert (docs + [(kind, content)])[..|docs|] == docs;
  }

  // ---------------------------------------------------------------------------
  // The creator's items
  // ---------------------------------------------------------------------------

  /** `creator.platforms`: the platforms linked to the creator, in table order. */
  function PlatformsOf(platforms: seq<Platform>, creatorId: int): (r: seq<Platform>)
    ensures forall p :: p in r <==> p in platforms && p.creatorId == creatorId
  {
    if platforms == [] then []
    else (if platforms[0].creatorId == creatorId then [platforms[0]] else []) + PlatformsOf(platforms[1..], creatorId)
  }

  /** The table once the in-place edits of the items in `updated` are committed: each row
      whose id is among them takes the updated item. */
  function WriteBack(table: seq<ContentItem>, updated: seq<ContentItem>): (r: seq<ContentItem>)
    ensures |r| == |table|
  {
    seq(|table|, i requires 0 <= i < |table| =>
      match ItemById(updated, table[i].id)
      case Some(u) => u
      case None => table[i])
  }

  /** Writing back summarised copies of some rows changes summaries only: every row keeps
      all its other fields, rows that were not among the copies are untouched, and each
      copy lands in the table. */
  lemma WriteBackSummaries(table: seq<ContentItem>, found: seq<ContentItem>, updated: seq<ContentItem>)
    requires DistinctIds(table) && DistinctIds(found)
    requires forall x :: x in found ==> x in table
    requires |updated| == |found|
    requires forall p :: 0 <= p < |found| ==> updated[p] == found[p].(summary := updated[p].summary)
    ensures DistinctIds(WriteBack(table, updated))
    ensures forall i :: 0 <= i < |table| ==>
              WriteBack(table, updated)[i] == table[i].(summary := WriteBack(table, updated)[i].summary)
    ensures forall i :: 0 <= i < |table| && table[i] !in found ==> WriteBack(table, updated)[i] == table[i]
    ensures forall p :: 0 <= p < |updated| ==> updated[p] in WriteBack(table, updated)
  {
    var r := WriteBack(table, updated);
    forall i | 0 <= i < |table|
      ensures r[i] == table[i].(summary := r[i].summary)
      ensures table[i] !in found ==> r[i] == table[i]
    {
      var u := ItemById(updated, table[i].id);
      if u.Some? {
        var q :| 0 <= q < |updated| && updated[q] == u.value;
        assert found[q] in table;
        var m :| 0 <= m < |table| && table[m] == found[q];
        assert found[q].id == table[i].id;
        assert m == i;
      }
    }
    forall p | 0 <= p < |updated| ensures updated[p] in r {
      assert found[p] in table;
      var i :| 0 <= i < |table| && table[i] == found[p];
      var u := ItemById(updated, table[i].id);
      var q :| 0 <= q < |updated| && updated[q] == u.value;
      assert found[q].id == found[p].id;
      assert r[i] == updated[p];
    }
  }

  // ---------------------------------------------------------------------------
  // _generate_topic_clusters: the summary list
  // ---------------------------------------------------------------------------

  const TopicChars: nat := 200
  const MaxTopicLines: nat := 300

  /** `item.summary or item.caption or item.title or ""` */
  function TopicText(item: ContentItem): string
  {
    OrElse(item.summary, OrElse(item.caption, Text(item.title)))
  }

  /** `" ({views} views)"` when there are views. */
  function ViewsNote(views: nat): string
  {
    if views == 0 then "" else " (" + NatToString(views) + " views)"
  }

  function TopicLine(item: ContentItem): string
  {
    "- " + Take(TopicText(item), TopicChars) + ViewsNote(item.views)
  }

  /** One line per item that has some text, in order. */
  function TopicLines(items: seq<ContentItem>): seq<string>
  {
    if items == [] then []
    else
      var last := items[|items| - 1];
      TopicLines(items[..|items| - 1]) + (if TopicText(last) != "" then [TopicLine(last)] else [])
  }

  /** The list has a line for every item with some text and no other line, so it never
      has more lines than there are items. */
  lemma {:induction false} TopicLinesFacts(items: seq<ContentItem>)
    ensures |TopicLines(items)| <= |items|
    ensures forall x :: x in items && TopicText(x) != "" ==> TopicLine(x) in TopicLines(items)
    ensures forall l :: l in TopicLines(items) ==> exists x :: x in items && TopicText(x) != "" && l == TopicLine(x)
  {
    if items != [] {
      var init := items[..|items| - 1];
      var last := items[|items| - 1];
      TopicLinesFacts(init);
      assert forall x :: x in items ==> x in init || x == last;
      assert forall x :: x in init ==> x in items;
    }
  }

  /** The loop building `summary_list`. */
  method SummaryList(items: seq<ContentItem>) returns (lines: seq<string>)
    ensures lines == TopicLines(items)
  {
    lines := [];
    for k := 0 to |items|
      invariant lines == TopicLines(items[..k])
    {
      var item := items[k];
      var s := OrElse(item.summary, OrElse(item.caption, Text(item.title)));
      if s != "" {
        var views := if item.views != 0 then " (" + NatToString(item.views) + " views)" else "";
        lines := lines + ["- " + Take(s, TopicChars) + views];
      }
      assert items[..k + 1][..k] == items[..k];
    }
    assert items[..|items|] == items;
  }

  // ---------------------------------------------------------------------------
  // _generate_creator_profile: statistics and top content
  // ---------------------------------------------------------------------------

  const TopCount: nat := 15

  datatype ProfileStats = ProfileStats(total: nat, totalViews: nat, avgViews: nat, avgLikes: nat)

  function Views(item: ContentItem): nat { item.views }

  function Likes(item: ContentItem): nat { item.likes }

  function StatsOf(items: seq<ContentItem>): ProfileStats
  {
    ProfileStats(|items|, SumOf(items, Views), FloorAverage(items, Views), FloorAverage(items, Likes))
  }

  /** `Stats: {total} videos, {total_views:,} total views, …` */
  function StatsLine(s: ProfileStats): string
  {
    NatToString(s.total) + " videos, " + Thousands(s.totalViews) + " total views, "
    + Thousands(s.avgViews) + " avg views, " + Thousands(s.avgLikes) + " avg likes"
  }

  /** The averages are 0 for no items and otherwise the floors of the exact means; with
      every item's views at most `hi`, so is the average. */
  lemma StatsFacts(items: seq<ContentItem>, hi: nat)
    requires forall x :: x in items ==> x.views <= hi
    ensures items == [] ==> StatsOf(items) == ProfileStats(0, 0, 0, 0)
    ensures var s := StatsOf(items);
      items != [] ==>
        && s.avgViews * s.total <= s.totalViews < (s.avgViews + 1) * s.total
        && s.avgLikes * s.total <= SumOf(items, Likes) < (s.avgLikes + 1) * s.total
        && s.avgViews <= hi
  {
    FloorAverageFacts(items, Views, 0, hi);
    if items != [] {
      FloorBounds(SumOf(items, Likes), |items|);
    }
  }

  lemma FloorBounds(s: nat, n: nat)
    requires n > 0
    ensures (s / n) * n <= s < (s / n + 1) * n
  {
    var q, r := s / n, s % n;
    assert s == q * n + r && r < n;
    assert (q + 1) * n == q * n + n;
  }

  /** `sorted(items, key=views, reverse=True)[:15]` */
  function TopItems(items: seq<ContentItem>): seq<ContentItem>
  {
    Take(SortDesc(items, ViewsKey), TopCount)
  }

  /** The top content is the 15 most viewed items (all of them when there are fewer),
      most viewed first: no item left out has more views than one kept. */
  lemma TopItemsFacts(items: seq<ContentItem>)
    ensures |TopItems(items)| == if |items| < TopCount then |items| else TopCount
    ensures forall x :: x in TopItems(items) ==> x in items
    ensures forall i, j :: 0 <= i < j < |TopItems(items)| ==> TopItems(items)[i].views >= TopItems(items)[j].views
    ensures forall x, t :: x in items && x !in TopItems(items) && t in TopItems(items) ==> t.views >= x.views
  {
    var sorted := SortDesc(items, ViewsKey);
    SortDescMembers(items, ViewsKey);
    SortDescSorted(items, ViewsKey);
    TopDominates(sorted, TopItems(items));
  }

  /** In a list sorted by views, a prefix holds the most viewed elements. */
  lemma TopDominates(sorted: seq<ContentItem>, top: seq<ContentItem>)
    requires SortedDesc(sorted, ViewsKey)
    requires |top| <= |sorted| && top == sorted[..|top|]
    ensures forall i, j :: 0 <= i < j < |top| ==> top[i].views >= top[j].views
    ensures forall x, t :: x in sorted && x !in top && t in top ==> t.views >= x.views
  {
    forall i, j | 0 <= i < j < |top| ensures top[i].views >= top[j].views {
      assert ViewsKey(sorted[i]) >= ViewsKey(sorted[j]);
    }
    forall x, t | x in sorted && x !in top && t in top ensures t.views >= x.views {
      var j :| 0 <= j < |sorted| && sorted[j] == x;
      var i :| 0 <= i < |top| && top[i] == t;
      assert ViewsKey(sorted[i]) >= ViewsKey(sorted[j]);
    }
  }

  /** `f"- [{i.views} views] {i.summary or i.title or i.external_id}"` */
  function TopLine(item: ContentItem): string
  {
    "- [" + NatToString(item.views) + " views] " + OrElse(item.summary, OrElse(item.title, item.externalId))
  }

  function TopSummaries(items: seq<ContentItem>): string
  {
    var top := TopItems(items);
    Join(seq(|top|, i requires 0 <= i < |top| => TopLine(top[i])), "\n")
  }

  // ---------------------------------------------------------------------------
  // _generate_style_analysis: transcript sampling
  // ---------------------------------------------------------------------------

  const GroupSize: nat := 5
  const MaxSamples: nat := 15
  const SampleChars: nat := 2000
  const InsufficientTranscripts := "Insufficient transcript data for style analysis."

  /** `top5 + recent5 + middle5`: the five most viewed, the five newest and the five
      around the middle of the views ranking. */
  function Candidates(items: seq<ContentItem>): seq<ContentItem>
  {
    var byViews := SortDesc(items, ViewsKey);
    Take(byViews, GroupSize) + Take(SortDesc(items, DateKey), GroupSize) + Middle(byViews)
  }

  /** `s[max(0, mid):mid + 5]` with `mid = len(s) // 2 - 2`. */
  function Middle<T>(s: seq<T>): (r: seq<T>)
    ensures |r| <= GroupSize
    ensures forall x :: x in r ==> x in s
  {
    var midStart: int := |s| / 2 - 2;
    var lo: nat := if midStart < 0 then 0 else midStart;
    var hi: nat := if midStart + GroupSize < |s| then midStart + GroupSize else |s|;
    if lo <= hi then s[lo..hi] else []
  }

  /** There are at most 15 candidates, all of them items. */
  lemma CandidatesFacts(items: seq<ContentItem>)
    ensures |Candidates(items)| <= 3 * GroupSize
    ensures forall x :: x in Candidates(items) ==> x in items
  {
    SortDescMembers(items, ViewsKey);
    SortDescMembers(items, DateKey);
  }

  function IdSet(items: seq<ContentItem>): set<int>
  {
    set x | x in items :: x.id
  }

  /** The samples the loop keeps from the candidates: each candidate with a transcript
      whose id was not kept yet, until there are 15. */
  function Sampled(cands: seq<ContentItem>): seq<ContentItem>
  {
    if cands == [] then []
    else
      var s := Sampled(cands[..|cands| - 1]);
      var x := cands[|cands| - 1];
      if |s| >= MaxSamples then s
      else if x.id !in IdSet(s) && Truthy(x.transcript) then s + [x]
      else s
  }

  /** The samples are at most 15 candidates, each with a transcript and no two with one
      id; while fewer than 15 are kept, every candidate with a transcript has its id
      among them. */
  lemma {:induction false} SampledFacts(cands: seq<ContentItem>)
    ensures |Sampled(cands)| <= MaxSamples
    ensures forall x :: x in Sampled(cands) ==> x in cands && Truthy(x.transcript)
    ensures DistinctIds(Sampled(cands))
    ensures |Sampled(cands)| < MaxSamples ==>
              forall x :: x in cands && Truthy(x.transcript) ==> x.id in IdSet(Sampled(cands))
  {
    if cands != [] {
      var init := cands[..|cands| - 1];
      var x := cands[|cands| - 1];
      SampledFacts(init);
      var s := Sampled(init);
      assert forall y :: y in init ==> y in cands;
      assert forall y :: y in cands ==> y in init || y == x;
      if |s| < MaxSamples && x.id !in IdSet(s) && Truthy(x.transcript) {
        var r := s + [x];
        forall i, j | 0 <= i < j < |r| ensures r[i].id != r[j].id {
          if j == |s| {
            assert r[i] in s;
          }
        }
        assert IdSet(r) == IdSet(s) + {x.id};
      }
    }
  }

  /** Once 15 samples are kept, later candidates change nothing: the loop's `break`. */
  lemma {:induction false} SampledCapped(cands: seq<ContentItem>, k: nat)
    requires k <= |cands| && |Sampled(cands[..k])| >= MaxSamples
    ensures Sampled(cands) == Sampled(cands[..k])
    decreases |cands|
  {
    if k == |cands| {
      assert cands[..k] == cands;
    } else {
      var init := cands[..|cands| - 1];
      assert init[..k] == cands[..k];
      SampledCapped(init, k);
    }
  }

  lemma SampledNext(cands: seq<ContentItem>, k: nat)
    requires k < |cands|
    ensures var s := Sampled(cands[..k]);
      Sampled(cands[..k + 1])
      == if |s| >= MaxSamples then s
         else if cands[k].id !in IdSet(s) && Truthy(cands[k].transcript) then s + [cands[k]]
         else s
  {
    assert cands[..k + 1][..k] == cands[..k];
  }

  lemma IdSetSnoc(s: seq<ContentItem>, x: ContentItem)
    ensures IdSet(s + [x]) == IdSet(s) + {x.id}
  {
    assert forall y :: y in s + [x] <==> y in s || y == x;
  }

  /** The deduplicating loop over the candidates, with its `break` at 15 samples. */
  method PickSamples(cands: seq<ContentItem>) returns (samples: seq<ContentItem>)
    ensures samples == Sampled(cands)
  {
    var seen: set<int> := {};
    samples := [];
    for k := 0 to |cands|
      invariant samples == Sampled(cands[..k]) && seen == IdSet(samples)
      invariant |samples| < MaxSamples
    {
      var item := cands[k];
      SampledNext(cands, k);
      if item.id !in seen && Truthy(item.transcript) {
        IdSetSnoc(samples, item);
        seen := seen + {item.id};
        samples := samples + [item];
      }
      if |samples| >= MaxSamples {
        SampledCapped(cands, k + 1);
        return;
      }
    }
    assert cands[..|cands|] == cands;
  }

  /** `f"--- [{views} views, {date or 'no date'}] ---\n{transcript[:2000]}"` */
  function SampleText(item: ContentItem): string
  {
    "--- [" + NatToString(item.views) + " views, "
    + (if item.timestamp.Some? then IsoDay(item.timestamp.value) else "no date")
    + "] ---\n" + Take(Text(item.transcript), SampleChars)
  }

  function SampleTexts(samples: seq<ContentItem>): (r: seq<string>)
    ensures |r| == |samples|
  {
    if samples == [] then [] else SampleTexts(samples[..|samples| - 1]) + [SampleText(samples[|samples| - 1])]
  }

  /** The list has one text per sample, in order. */
  lemma {:induction false} SampleTextsFacts(samples: seq<ContentItem>)
    ensures forall i :: 0 <= i < |samples| ==> SampleTexts(samples)[i] == SampleText(samples[i])
  {
    if samples != [] {
      SampleTextsFacts(samples[..|samples| - 1]);
    }
  }

  /** A sample's text ends with its transcript cut to 2000 characters. */
  lemma SampleTextEnds(item: ContentItem)
    ensures EndsWith(SampleText(item), "] ---\n" + Take(Text(item.transcript), SampleChars))
  {
    var t := "] ---\n" + Take(Text(item.transcript), SampleChars);
    var head := "--- [" + NatToString(item.views) + " views, "
      + (if item.timestamp.Some? then IsoDay(item.timestamp.value) else "no date");
    assert SampleText(item) == head + t;
    assert (head + t)[|head + t| - |t|..] == t;
  }

  /** The loop building `transcript_texts`. */
  method ListSampleTexts(samples: seq<ContentItem>) returns (texts: seq<string>)
    ensures texts == SampleTexts(samples)
  {
    texts := [];
    for k := 0 to |samples|
      invariant texts == SampleTexts(samples[..k])
    {
      var item := samples[k];
      var t := if Truthy(item.transcript) then Take(item.transcript.value, SampleChars) else "";
      var date := if item.timestamp.Some? then IsoDay(item.timestamp.value) else "no date";
      texts := texts + ["--- [" + NatToString(item.views) + " views, " + date + "] ---\n" + t];
      assert samples[..k + 1][..k] == samples[..k];
    }
    assert samples[..|samples|] == samples;
  }

  // ---------------------------------------------------------------------------
  // The three analyses and what generate_all reports
  // ---------------------------------------------------------------------------

  const SummaryChars: nat := 2000

  /** What the language model is asked for: the topic clusters of the summary lines
      (their count and the first 300), the profile from the statistics, the clusters and
      the top content, and the style from the transcript samples. */
  datatype Request =
    | TopicsRequest(name: string, count: nat, lines: seq<string>)
    | ProfileRequest(name: string, stats: ProfileStats, clusters: string, top: string)
    | StyleRequest(name: string, samples: seq<string>)

  /** The language model: its answer to a request, or the text of what it raised. */
  type Analyst = Request -> Result<string, string>

  function TopicsRequestOf(name: string, items: seq<ContentItem>): Request
  {
    TopicsRequest(name, |TopicLines(items)|, Take(TopicLines(items), MaxTopicLines))
  }

  function ProfileRequestOf(name: string, items: seq<ContentItem>, clusters: string): Request
  {
    ProfileRequest(name, StatsOf(items), clusters, TopSummaries(items))
  }

  /** The style document: the fixed text when no candidate has a transcript, with no
      call to the model, and the model's answer otherwise. */
  function StyleOf(name: string, items: seq<ContentItem>, analyst: Analyst): Result<string, string>
  {
    var samples := Sampled(Candidates(items));
    if samples == [] then Ok(InsufficientTranscripts) else analyst(StyleRequest(name, SampleTexts(samples)))
  }

  /** The documents saved (kind and content, in order) and the exception that ended the
      run early, if one did. */
  datatype Analysis = Analysis(saved: seq<(string, string)>, failure: Option<string>)

  /** The analyses in order, each needing the previous ones to succeed. */
  function Analyze(name: string, items: seq<ContentItem>, analyst: Analyst): (r: Analysis)
    ensures r.failure.None? <==> |r.saved| == 3
    ensures |r.saved| <= 3
    ensures |r.saved| > 0 ==> r.saved[0].0 == "topics" && analyst(TopicsRequestOf(name, items)) == Ok(r.saved[0].1)
    ensures |r.saved| > 1 ==>
              r.saved[1].0 == "profile" && analyst(ProfileRequestOf(name, items, r.saved[0].1)) == Ok(r.saved[1].1)
    ensures |r.saved| > 2 ==> r.saved[2].0 == "style" && StyleOf(name, items, analyst) == Ok(r.saved[2].1)
  {
    var topics := analyst(TopicsRequestOf(name, items));
    if topics.Err? then Analysis([], Some(topics.error))
    else
      var profile := analyst(ProfileRequestOf(name, items, topics.value));
      if profile.Err? then Analysis([("topics", topics.value)], Some(profile.error))
      else
        var style := StyleOf(name, items, analyst);
        if style.Err? then Analysis([("topics", topics.value), ("profile", profile.value)], Some(style.error))
        else Analysis([("topics", topics.value), ("profile", profile.value), ("style", style.value)], None)
  }

  /** The run stops at the first analysis that raises, with the earlier ones saved. */
  lemma AnalyzeStops(name: string, items: seq<ContentItem>, analyst: Analyst)
    ensures var topics := analyst(TopicsRequestOf(name, items));
      topics.Err? ==> Analyze(name, items, analyst) == Analysis([], Some(topics.error))
    ensures var topics := analyst(TopicsRequestOf(name, items));
      topics.Ok? ==>
        var profile := analyst(ProfileRequestOf(name, items, topics.value));
        && (profile.Err? ==> Analyze(name, items, analyst) == Analysis([("topics", topics.value)], Some(profile.error)))
        && (profile.Ok? && StyleOf(name, items, analyst).Err? ==>
              Analyze(name, items, analyst)
              == Analysis([("topics", topics.value), ("profile", profile.value)], Some(StyleOf(name, items, analyst).error)))
  {
  }

  /** When all three analyses answer, all three documents are saved, in order. */
  lemma AnalyzeAllSaved(name: string, items: seq<ContentItem>, analyst: Analyst, topics: string, profile: string, style: string)
    requires analyst(TopicsRequestOf(name, items)) == Ok(topics)
    requires analyst(ProfileRequestOf(name, items, topics)) == Ok(profile)
    requires StyleOf(name, items, analyst) == Ok(style)
    ensures Analyze(name, items, analyst) == Analysis([("topics", topics), ("profile", profile), ("style", style)], None)
  {
  }

  datatype Stage = SummaryStage | TopicStage | ProfileStage | StyleStage | DoneStage

  datatype Message =
    | Generating(count: nat)
    | BatchNote(note: Note)
    | AnalyzingTopics | TopicsComplete
    | BuildingProfile | ProfileComplete
    | AnalyzingStyle | StyleComplete
    | Complete

  /** Why generate_all stops before doing anything. */
  datatype Failure = CreatorNotFound | NoPlatformsLinked | NoContentItems

  /** `{"stage": "error", "message": …}` or `{"stage": …, "message": …, "progress": …}`. */
  datatype Event = Error(failure: Failure) | Progress(stage: Stage, message: Message, progress: real)

  function StageName(stage: Stage): string
  {
    match stage
    case SummaryStage => "summaries"
    case TopicStage => "topics"
    case ProfileStage => "profile"
    case StyleStage => "style"
    case DoneStage => "done"
  }

  function FailureText(failure: Failure): string
  {
    match failure
    case CreatorNotFound => "Creator not found"
    case NoPlatformsLinked => "No platforms linked"
    case NoContentItems => "No content items found"
  }

  function MessageText(message: Message): string
  {
    match message
    case Generating(count) => "Generating video summaries (" + NatToString(count) + " items)..."
    case BatchNote(note) => NoteText(note)
    case AnalyzingTopics => "Analyzing topic clusters..."
    case TopicsComplete => "Topic clusters complete"
    case BuildingProfile => "Building creator profile..."
    case ProfileComplete => "Creator profile complete"
    case AnalyzingStyle => "Analyzing content style..."
    case StyleComplete => "Style analysis complete"
    case Complete => "Knowledge generation complete!"
  }

  /** The first event: step 1 of 4, scaled to the first tenth. */
  function Opening(count: nat): Event
  {
    Progress(SummaryStage, Generating(count), 1.0 / 4.0 * 0.1)
  }

  /** The summary loop's progress events, scaled to the first half. */
  function SummaryEvents(steps: seq<Step>): seq<Event>
  {
    if steps == [] then []
    else
      var last := steps[|steps| - 1];
      SummaryEvents(steps[..|steps| - 1])
      + (if last.Report? then [Progress(SummaryStage, BatchNote(last.note), last.progress * 0.5)] else [])
  }

  /** The start and end of each analysis, then the final event; analysis `k` starts at
      position `2 * k`. */
  const StageEvents: seq<Event> := [
    Progress(TopicStage, AnalyzingTopics, 0.55), Progress(TopicStage, TopicsComplete, 0.7),
    Progress(ProfileStage, BuildingProfile, 0.72), Progress(ProfileStage, ProfileComplete, 0.85),
    Progress(StyleStage, AnalyzingStyle, 0.87), Progress(StyleStage, StyleComplete, 0.95),
    Progress(DoneStage, Complete, 1.0)]

  /** The events after the summaries: up to the start of the analysis that raised, or all. */
  function AnalysisEvents(a: Analysis): seq<Event>
    requires |a.saved| <= 3
  {
    if a.failure.Some? then StageEvents[..2 * |a.saved| + 1] else StageEvents
  }

  /** The events of a run over `count` items that reaches the summaries. */
  function Timeline(count: nat, steps: seq<Step>, a: Analysis): seq<Event>
    requires |a.saved| <= 3
  {
    [Opening(count)] + SummaryEvents(steps) + AnalysisEvents(a)
  }

  /** Each summary event carries half the loop's progress value. */
  lemma {:induction false} SummaryEventsProgress(steps: seq<Step>)
    ensures |SummaryEvents(steps)| == |Progresses(steps)|
    ensures forall i :: 0 <= i < |SummaryEvents(steps)| ==>
              SummaryEvents(steps)[i].Progress? && SummaryEvents(steps)[i].stage == SummaryStage
              && SummaryEvents(steps)[i].progress == Progresses(steps)[i] * 0.5
  {
    if steps != [] {
      SummaryEventsProgress(steps[..|steps| - 1]);
    }
  }

  /** The analysis events rise strictly, from 0.55 to at most 1.0. */
  lemma AnalysisEventsRise(a: Analysis)
    requires |a.saved| <= 3
    ensures forall i :: 0 <= i < |AnalysisEvents(a)| ==>
              AnalysisEvents(a)[i].Progress? && 0.55 <= AnalysisEvents(a)[i].progress <= 1.0
    ensures forall i, j :: 0 <= i < j < |AnalysisEvents(a)| ==>
              AnalysisEvents(a)[i].progress < AnalysisEvents(a)[j].progress
  {
    assert forall i, j :: 0 <= i < j < |StageEvents| ==> StageEvents[i].progress < StageEvents[j].progress;
  }

  /** After the opening event, the progress of a pipeline run rises strictly and stays in
      (0, 1]; summary events stay within the first half. */
  lemma TimelineRises(count: nat, n: nat, a: Analysis)
    requires |a.saved| <= 3
    ensures var t := Timeline(count, Steps(Pipeline, n), a);
      && (forall i :: 0 <= i < |t| ==> t[i].Progress? && 0.0 < t[i].progress <= 1.0)
      && (forall i, j :: 1 <= i < j < |t| ==> t[i].progress < t[j].progress)
  {
    var steps := Steps(Pipeline, n);
    StepsProgresses(Pipeline, n);
    SummaryEventsProgress(steps);
    AnalysisEventsRise(a);
    HalvedRise(Progresses(steps), SummaryEvents(steps));
    JoinRises(Opening(count), SummaryEvents(steps), AnalysisEvents(a));
  }

  lemma HalvedRise(ps: seq<real>, se: seq<Event>)
    requires |se| == |ps|
    requires forall i, j :: 0 <= i < j < |ps| ==> 0.0 < ps[i] < ps[j] <= 1.0
    requires |ps| > 0 ==> 0.0 < ps[0] && ps[|ps| - 1] <= 1.0
    requires forall i :: 0 <= i < |se| ==> se[i].Progress? && se[i].progress == ps[i] * 0.5
    ensures forall i :: 0 <= i < |se| ==> 0.0 < se[i].progress <= 0.5
    ensures forall i, j :: 0 <= i < j < |se| ==> se[i].progress < se[j].progress
  {
    forall i | 0 <= i < |se| ensures 0.0 < se[i].progress <= 0.5 {
      if i < |ps| - 1 {
        assert ps[i] < ps[|ps| - 1];
      }
    }
  }

  /** The opening event, rising summary events in (0, 0.5] and rising analysis events
      in [0.55, 1] make a timeline that rises after its first event. */
  lemma JoinRises(head: Event, se: seq<Event>, ae: seq<Event>)
    requires head.Progress? && 0.0 < head.progress <= 1.0
    requires forall i :: 0 <= i < |se| ==> se[i].Progress? && 0.0 < se[i].progress <= 0.5
    requires forall i, j :: 0 <= i < j < |se| ==> se[i].progress < se[j].progress
    requires forall i :: 0 <= i < |ae| ==> ae[i].Progress? && 0.55 <= ae[i].progress <= 1.0
    requires forall i, j :: 0 <= i < j < |ae| ==> ae[i].progress < ae[j].progress
    ensures var t := [head] + se + ae;
      && (forall i :: 0 <= i < |t| ==> t[i].Progress? && 0.0 < t[i].progress <= 1.0)
      && (forall i, j :: 1 <= i < j < |t| ==> t[i].progress < t[j].progress)
  {
    var t := [head] + se + ae;
    assert forall i :: 0 <= i < |se| ==> t[1 + i] == se[i];
    assert forall i :: 0 <= i < |ae| ==> t[1 + |se| + i] == ae[i];
    forall i, j | 1 <= i < j < |t| ensures t[i].progress < t[j].progress {
      if j <= |se| {
        assert t[i] == se[i - 1] && t[j] == se[j - 1];
      } else if i <= |se| {
        assert t[i] == se[i - 1] && t[j] == ae[j - 1 - |se|];
      } else {
        assert t[i] == ae[i - 1 - |se|] && t[j] == ae[j - 1 - |se|];
      }
    }
  }

  /** A run without an exception ends with the completion event at 1.0; a run that
      raised ends with the start event of the analysis that raised. No run reports an
      error event once it has items. */
  lemma TimelineEnds(count: nat, steps: seq<Step>, a: Analysis)
    requires |a.saved| <= 3
    ensures var t := Timeline(count, steps, a);
      && (a.failure.None? ==> t[|t| - 1] == Progress(DoneStage, Complete, 1.0))
      && (a.failure.Some? ==> t[|t| - 1] == StageEvents[2 * |a.saved|])
      && (forall i :: 0 <= i < |t| ==> !t[i].Error?)
  {
    var t := Timeline(count, steps, a);
    SummaryEventsProgress(steps);
    assert t[|t| - 1] == AnalysisEvents(a)[|AnalysisEvents(a)| - 1];
  }

  /** The opening event is below the first summary event only while there are at most
      20 batches: with more than 200 items to summarise the reported progress steps back
      after the opening event. */
  lemma OpeningAboveFirstBatch(count: nat, n: nat, a: Analysis)
    requires |a.saved| <= 3 && n > 0
    ensures var t := Timeline(count, Steps(Pipeline, n), a);
      t[1].Progress? && (t[1].progress < t[0].progress <==> NumBatches(n, SummaryBatchSize) > 20)
  {
    var steps := Steps(Pipeline, n);
    var total := NumBatches(n, SummaryBatchSize);
    NumBatchesBounds(n, SummaryBatchSize);
    StepsProgresses(Pipeline, n);
    SummaryEventsProgress(steps);
    StepsUpToProgresses(n, total);
    var t := Timeline(count, steps, a);
    assert t[1] == SummaryEvents(steps)[0];
    HalfFraction(total);
  }

  lemma HalfFraction(total: nat)
    requires total > 0
    ensures (1 as real / total as real) * 0.5 < 1.0 / 4.0 * 0.1 <==> total > 20
  {
    var x := 1 as real / total as real;
    assert x * total as real == 1.0;
    if total > 20 {
      assert x * 20.0 < x * total as real;
    } else {
      assert x * 20.0 >= x * total as real;
    }
  }

  // ---------------------------------------------------------------------------
  // The database and the service's entry points
  // ---------------------------------------------------------------------------

  /** The tables the service reads and writes. */
  class KnowledgeBase {
    var creators: map<int, Creator>
    var platforms: seq<Platform>
    var items: seq<ContentItem>
    var rows: seq<Knowledge>

    /** The primary keys hold and there is one document per creator and kind. */
    ghost predicate Valid()
      reads this
    {
      DistinctIds(items) && OneDocumentPerKind(rows)
    }

    constructor(creators: map<int, Creator>, platforms: seq<Platform>, items: seq<ContentItem>)
      requires DistinctIds(items)
      ensures Valid()
      ensures this.creators == creators && this.platforms == platforms && this.items == items && rows == []
    {
      this.creators := creators;
      this.platforms := platforms;
      this.items := items;
      rows := [];
    }

    /** `_save_knowledge`. */
    method SaveKnowledge(creatorId: int, kind: string, content: string, now: DateTime)
      requires Valid()
      modifies this
      ensures Valid()
      ensures rows == Upserted(old(rows), creatorId, kind, content, now)
      ensures creators == old(creators) && platforms == old(platforms) && items == old(items)
    {
      UpsertedKeepsOnePerKind(rows, creatorId, kind, content, now);
      var existing := FirstDocument(rows, creatorId, kind);
      if existing.Some? {
        var i := existing.value;
        rows := rows[i := rows[i].(content := content, generatedAt := now, version := rows[i].version + 1)];
      } else {
        rows := rows + [Knowledge(creatorId, kind, content, now, 1)];
      }
    }

    /** The summary loop over the found items, committed to the table. */
    method SummarizeFound(found: seq<ContentItem>, variant: Variant, ask: Model, parse: Parser)
      returns (steps: seq<Step>)
      requires Valid()
      requires DistinctIds(found) && forall x :: x in found ==> x in items
      modifies this
      ensures Valid()
      ensures items == WriteBack(old(items), Summarized(variant, found, ask, parse))
      ensures steps == Steps(variant, |Pending(found)|)
      ensures creators == old(creators) && platforms == old(platforms) && rows == old(rows)
    {
      var updated;
      updated, steps := SummarizeVideos(variant, found, ask, parse);
      SummarizedKeeps(variant, found, ask, parse);
      WriteBackSummaries(items, found, updated);
      items := WriteBack(items, updated);
    }

    /** `generate_summaries_for_new_items`: the post-scrape hook over the new items. */
    method SummarizeNewItems(newItems: seq<ContentItem>, ask: Model, parse: Parser)
      requires Valid()
      requires DistinctIds(newItems) && forall x :: x in newItems ==> x in items
      modifies this
      ensures Valid()
      ensures items == WriteBack(old(items), Summarized(PostScrape, newItems, ask, parse))
      ensures creators == old(creators) && platforms == old(platforms) && rows == old(rows)
    {
      var steps := SummarizeFound(newItems, PostScrape, ask, parse);
    }

    /** The three analyses over the refreshed items, each saved as it completes, and the
        creator's summary taken from the profile and stamped `now` once all three are
        saved. */
    method Analyses(creatorId: int, refreshed: seq<ContentItem>, analyst: Analyst, now: DateTime)
      returns (tail: seq<Event>, raised: Option<string>)
      requires Valid() && creatorId in creators
      modifies this
      ensures Valid()
      ensures var a := Analyze(old(creators)[creatorId].name, refreshed, analyst);
        && tail == AnalysisEvents(a) && raised == a.failure
        && rows == SaveAll(old(rows), creatorId, a.saved, now)
        && creators == if a.failure.Some? then old(creators)
                       else old(creators)[creatorId := old(creators)[creatorId].(summary := Some(Take(a.saved[1].1, SummaryChars)),
                                                                                 summaryGeneratedAt := Some(now))]
      ensures platforms == old(platforms) && items == old(items)
    {
      var creator := creators[creatorId];
      ghost var a := Analyze(creator.name, refreshed, analyst);
      ghost var rows0 := rows;
      AnalyzeStops(creator.name, refreshed, analyst);
      tail := StageEvents[..1];
      var clusters := TopicAnalysis(creator.name, refreshed, analyst);
      if clusters.Err? {
        assert a.saved == [];
        assert rows == SaveAll(rows0, creatorId, a.saved, now);
        return tail, Some(clusters.error);
      }
      SaveKnowledge(creatorId, "topics", clusters.value, now);
      SaveAllSnoc(rows0, creatorId, [], "topics", clusters.value, now);
      tail := StageEvents[..3];
      var profile := analyst(ProfileRequestOf(creator.name, refreshed, clusters.value));
      if profile.Err? {
        assert a.saved == [] + [("topics", clusters.value)];
        assert rows == SaveAll(rows0, creatorId, a.saved, now);
        return tail, Some(profile.error);
      }
      SaveKnowledge(creatorId, "profile", profile.value, now);
      SaveAllSnoc(rows0, creatorId, [("topics", clusters.value)], "profile", profile.value, now);
      tail := StageEvents[..5];
      var style := StyleAnalysis(creator.name, refreshed, analyst);
      if style.Err? {
        assert a.saved == [("topics", clusters.value)] + [("profile", profile.value)];
        assert rows == SaveAll(rows0, creatorId, a.saved, now);
        return tail, Some(style.error);
      }
      SaveKnowledge(creatorId, "style", style.value, now);
      SaveAllSnoc(rows0, creatorId, [("topics", clusters.value), ("profile", profile.value)], "style", style.value, now);
      AnalyzeAllSaved(creator.name, refreshed, analyst, clusters.value, profile.value, style.value);
      assert a.saved == [("topics", clusters.value), ("profile", profile.value)] + [("style", style.value)];
      creators := creators[creatorId := creator.(summary := Some(Take(profile.value, SummaryChars)),
                                                 summaryGeneratedAt := Some(now))];
      tail := StageEvents;
      return tail, None;
    }

    /** `generate_all`. */
    method GenerateAll(creatorId: int, ask: Model, parse: Parser, analyst: Analyst, now: DateTime)
      returns (events: seq<Event>, raised: Option<string>)
      requires Valid()
      modifies this
      ensures Valid()
      ensures platforms == old(platforms)
      ensures creatorId !in old(creators) ==>
        events == [Error(CreatorNotFound)] && raised == None && Unchanged()
      ensures creatorId in old(creators) && CreatorPlatformIds(old(platforms), creatorId) == [] ==>
        events == [Error(NoPlatformsLinked)] && raised == None && Unchanged()
      ensures var ids := CreatorPlatformIds(old(platforms), creatorId);
        creatorId in old(creators) && ids != [] && Query(old(items), ids) == [] ==>
          events == [Error(NoContentItems)] && raised == None && Unchanged()
      ensures var ids := CreatorPlatformIds(old(platforms), creatorId);
        var found := Query(old(items), ids);
        creatorId in old(creators) && ids != [] && found != [] ==>
          && items == WriteBack(old(items), Summarized(Pipeline, found, ask, parse))
          && var a := Analyze(old(creators)[creatorId].name, Query(items, ids), analyst);
          && events == Timeline(|found|, Steps(Pipeline, |Pending(found)|), a)
          && raised == a.failure
          && rows == SaveAll(old(rows), creatorId, a.saved, now)
          && creators == if a.failure.Some? then old(creators)
                         else old(creators)[creatorId := old(creators)[creatorId].(summary := Some(Take(a.saved[1].1, SummaryChars)),
                                                                                   summaryGeneratedAt := Some(now))]
    {
      if creatorId !in creators {
        return [Error(CreatorNotFound)], None;
      }
      var ids := Prompt.PlatformIds(PlatformsOf(platforms, creatorId));
      if ids == [] {
        return [Error(NoPlatformsLinked)], None;
      }
      var found := Query(items, ids);
      if found == [] {
        return [Error(NoContentItems)], None;
      }
      QueryFacts(items, ids);
      events := [Opening(|found|)];
      var steps := SummarizeFound(found, Pipeline, ask, parse);
      events := events + SummaryEvents(steps);
      var refreshed := Query(items, ids);
      var tail;
      tail, raised := Analyses(creatorId, refreshed, analyst, now);
      events := events + tail;
    }

    /** The creator's platform ids, `[p.id for p in creator.platforms]`. */
    static function CreatorPlatformIds(platforms: seq<Platform>, creatorId: int): seq<int>
    {
      Prompt.PlatformIds(PlatformsOf(platforms, creatorId))
    }

    twostate predicate Unchanged()
      reads this
    {
      creators == old(creators) && platforms == old(platforms) && items == old(items) && rows == old(rows)
    }

    /** `_generate_topic_clusters`. */
    static method TopicAnalysis(name: string, items: seq<ContentItem>, analyst: Analyst)
      returns (clusters: Result<string, string>)
      ensures clusters == analyst(TopicsRequestOf(name, items))
    {
      var lines := SummaryList(items);
      clusters := analyst(TopicsRequest(name, |lines|, Take(lines, MaxTopicLines)));
    }

    /** `_generate_style_analysis`. */
    static method StyleAnalysis(name: string, items: seq<ContentItem>, analyst: Analyst)
      returns (style: Result<string, string>)
      ensures style == StyleOf(name, items, analyst)
    {
      var samples := PickSamples(Candidates(items));
      if samples == [] {
        return Ok(InsufficientTranscripts);
      }
      var texts := ListSampleTexts(samples);
      style := analyst(StyleRequest(name, texts));
    }
  }
}
