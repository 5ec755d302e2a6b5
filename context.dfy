/** The retrieval context of one chat turn (`_build_context` and `_format_item_full` in
    backend/services/ai_chat.py): the keyword hits, then the semantic hits not already
    shown, each item in full, joined and cut to a character budget. The semantic search
    is the vector store's `search` over the creator's store, an `Err` standing for the
    exception the context builder swallows. */
module Context {
  import opened Common
  import opened Dates
  import opened Models
  import opened Sorting
  import opened KeywordSearch
  import Embeddings

  const MaxContextChars: nat := 60000
  const MaxTranscriptPerItem: nat := 8000
  const KeywordHitCount: nat := 5
  const CaptionExcerpt: nat := 1000

  const NoContentYet := "No content data available yet."
  const NothingMatched: string :=
    "No specific transcripts matched this query." + " Refer to the content catalog and creator knowledge above."
  const KeywordHeader := "### Keyword-Matched Transcripts"
  const SemanticHeader := "\n### Semantically Relevant Transcripts"
  const Separator := "---"
  const ContextMarker := "\n\n[Transcripts" + TruncatedToFit

  // ---------------------------------------------------------------------------
  // _format_item_full
  // ---------------------------------------------------------------------------

  /** The headline: the platform label, then the title or else the external id. */
  function Headline(item: ContentItem, platform: Option<Platform>): string
  {
    "[" + PlatformLabel(item, platform) + "] " + OrElse(item.title, item.externalId)
  }

  function UrlLines(item: ContentItem): seq<string>
  {
    if Truthy(item.url) then ["URL: " + item.url.value] else []
  }

  function StatsLines(item: ContentItem): seq<string>
  {
    ["Stats: " + NatToString(item.views) + " views, " + NatToString(item.likes) + " likes, "
     + NatToString(item.comments) + " comments"]
    + (if item.timestamp.Some? then ["Date: " + IsoDay(item.timestamp.value)] else [])
  }

  function CaptionLines(item: ContentItem): seq<string>
  {
    if Truthy(item.caption) then ["Caption: " + Take(item.caption.value, CaptionExcerpt)] else []
  }

  function TranscriptLines(item: ContentItem, limit: nat): seq<string>
  {
    if Truthy(item.transcript) && item.transcript != item.caption
    then ["Full Transcript: " + Take(item.transcript.value, limit)] else []
  }

  function ItemLines(item: ContentItem, platform: Option<Platform>, limit: nat): seq<string>
  {
    [Headline(item, platform)] + UrlLines(item) + StatsLines(item) + CaptionLines(item) + TranscriptLines(item, limit)
  }

  function FormatItemFull(item: ContentItem, platform: Option<Platform>, limit: nat): string
  {
    Join(ItemLines(item, platform, limit), "\n")
  }

  /** Every line of a section starts with the character `c`. */
  predicate Leads(lines: seq<string>, c: char)
  {
    forall k :: 0 <= k < |lines| ==> |lines[k]| > 0 && lines[k][0] == c
  }

  lemma SectionLeads(item: ContentItem, platform: Option<Platform>, limit: nat)
    ensures Leads([Headline(item, platform)], '[')
    ensures Leads(UrlLines(item), 'U')
    ensures forall k :: 0 <= k < |StatsLines(item)| ==>
              |StatsLines(item)[k]| > 0 && (StatsLines(item)[k][0] == 'S' || StatsLines(item)[k][0] == 'D')
    ensures Leads(CaptionLines(item), 'C')
    ensures Leads(TranscriptLines(item, limit), 'F')
  {
  }

  /** A section holds a line with the prefix exactly when it is the line given. */
  lemma SingleLine(lines: seq<string>, prefix: string, present: bool, rest: string)
    requires lines == if present then [prefix + rest] else []
    ensures HasPart(lines, prefix) <==> present
  {
    if present {
      assert lines[0][..|prefix|] == prefix;
    }
  }

  /** The text starts with the headline. The URL line is there exactly when the item has
      a URL, the caption line (cut to 1000 characters) exactly when it has a caption, and
      the transcript line (cut to `limit`) exactly when it has a transcript that differs
      from the caption. */
  lemma FormatItemFullFacts(item: ContentItem, platform: Option<Platform>, limit: nat)
    ensures StartsWith(FormatItemFull(item, platform, limit), Headline(item, platform))
    ensures HasPart(ItemLines(item, platform, limit), "URL: ") <==> Truthy(item.url)
    ensures HasPart(ItemLines(item, platform, limit), "Caption: ") <==> Truthy(item.caption)
    ensures Truthy(item.caption) ==> "Caption: " + Take(item.caption.value, CaptionExcerpt) in ItemLines(item, platform, limit)
    ensures HasPart(ItemLines(item, platform, limit), "Full Transcript: ") <==>
            Truthy(item.transcript) && item.transcript != item.caption
    ensures Truthy(item.transcript) && item.transcript != item.caption ==>
            "Full Transcript: " + Take(item.transcript.value, limit) in ItemLines(item, platform, limit)
  {
    JoinStartsWithFirst(ItemLines(item, platform, limit), "\n");
    ItemUrlLine(item, platform, limit);
    ItemCaptionLine(item, platform, limit);
    ItemTranscriptLine(item, platform, limit);
  }

  /** The URL line is there exactly when the item has a URL. */
  lemma ItemUrlLine(item: ContentItem, platform: Option<Platform>, limit: nat)
    ensures HasPart(ItemLines(item, platform, limit), "URL: ") <==> Truthy(item.url)
  {
    var h, u, s, c, t := [Headline(item, platform)], UrlLines(item), StatsLines(item), CaptionLines(item), TranscriptLines(item, limit);
    assert ItemLines(item, platform, limit) == h + u + s + c + t;
    SectionLeads(item, platform, limit);
    SingleLine(u, "URL: ", Truthy(item.url), if Truthy(item.url) then item.url.value else "");
    SectionsHavePart(h, u, s, c, t, "URL: ");
    NoPartStartsWith(h, "URL: ");
    NoPartStartsWith(s, "URL: ");
    NoPartStartsWith(c, "URL: ");
    NoPartStartsWith(t, "URL: ");
  }

  /** The caption line, cut to 1000 characters, is there exactly when the item has a
      caption. */
  lemma ItemCaptionLine(item: ContentItem, platform: Option<Platform>, limit: nat)
    ensures HasPart(ItemLines(item, platform, limit), "Caption: ") <==> Truthy(item.caption)
    ensures Truthy(item.caption) ==> "Caption: " + Take(item.caption.value, CaptionExcerpt) in ItemLines(item, platform, limit)
  {
    var h, u, s, c, t := [Headline(item, platform)], UrlLines(item), StatsLines(item), CaptionLines(item), TranscriptLines(item, limit);
    assert ItemLines(item, platform, limit) == h + u + s + c + t;
    SectionLeads(item, platform, limit);
    SingleLine(c, "Caption: ", Truthy(item.caption), if Truthy(item.caption) then Take(item.caption.value, CaptionExcerpt) else "");
    SectionsHavePart(h, u, s, c, t, "Caption: ");
    NoPartStartsWith(h, "Caption: ");
    NoPartStartsWith(u, "Caption: ");
    NoPartStartsWith(s, "Caption: ");
    NoPartStartsWith(t, "Caption: ");
    if Truthy(item.caption) {
      assert c[0] in h + u + s + c + t;
    }
  }

  /** The transcript line, cut to `limit`, is there exactly when the item has a transcript
      that differs from its caption. */
  lemma ItemTranscriptLine(item: ContentItem, platform: Option<Platform>, limit: nat)
    ensures HasPart(ItemLines(item, platform, limit), "Full Transcript: ") <==>
            Truthy(item.transcript) && item.transcript != item.caption
    ensures Truthy(item.transcript) && item.transcript != item.caption ==>
            "Full Transcript: " + Take(item.transcript.value, limit) in ItemLines(item, platform, limit)
  {
    var h, u, s, c, t := [Headline(item, platform)], UrlLines(item), StatsLines(item), CaptionLines(item), TranscriptLines(item, limit);
    assert ItemLines(item, platform, limit) == h + u + s + c + t;
    SectionLeads(item, platform, limit);
    SingleLine(t, "Full Transcript: ", Truthy(item.transcript) && item.transcript != item.caption,
               if Truthy(item.transcript) then Take(item.transcript.value, limit) else "");
    SectionsHavePart(h, u, s, c, t, "Full Transcript: ");
    NoPartStartsWith(h, "Full Transcript: ");
    NoPartStartsWith(u, "Full Transcript: ");
    NoPartStartsWith(s, "Full Transcript: ");
    NoPartStartsWith(c, "Full Transcript: ");
    if Truthy(item.transcript) && item.transcript != item.caption {
      assert t[0] in h + u + s + c + t;
    }
  }

  lemma SectionsHavePart(h: seq<string>, u: seq<string>, s: seq<string>, c: seq<string>, t: seq<string>, prefix: string)
    ensures HasPart(h + u + s + c + t, prefix) <==>
            HasPart(h, prefix) || HasPart(u, prefix) || HasPart(s, prefix) || HasPart(c, prefix) || HasPart(t, prefix)
  {
    HasPartAppend(h, u, prefix);
    HasPartAppend(h + u, s, prefix);
    HasPartAppend(h + u + s, c, prefix);
    HasPartAppend(h + u + s + c, t, prefix);
  }

  // ---------------------------------------------------------------------------
  // _build_context
  // ---------------------------------------------------------------------------

  /** Two lines per item: its full text, then the separator. */
  function Block(item: ContentItem, platform: Option<Platform>): seq<string>
  {
    [FormatItemFull(item, platform, MaxTranscriptPerItem), Separator]
  }

  /** The keyword section's lines, one block per hit. */
  function KeywordLines(hits: seq<Hit>): (r: seq<string>)
    ensures |r| == 2 * |hits|
  {
    if hits == [] then []
    else KeywordLines(hits[..|hits| - 1]) + Block(hits[|hits| - 1].item, hits[|hits| - 1].platform)
  }

  function HitIdSet(hits: seq<Hit>): set<int>
  {
    set h | h in hits :: h.item.id
  }

  lemma HitIdSetSnoc(hits: seq<Hit>, h: Hit)
    ensures HitIdSet(hits + [h]) == HitIdSet(hits) + {h.item.id}
  {
    assert forall g :: g in hits + [h] <==> g in hits || g == h;
  }

  function HitIds(hits: seq<Hit>): (r: seq<int>)
    ensures |r| == |hits| && forall i :: 0 <= i < |r| ==> r[i] == hits[i].item.id
  {
    seq(|hits|, i requires 0 <= i < |hits| => hits[i].item.id)
  }

  /** `if content_id and content_id not in seen_ids`: a content id counts when present
      and not zero. */
  predicate FreshId(c: Option<int>, seen: set<int>, taken: seq<int>)
  {
    c.Some? && c.value != 0 && c.value !in seen && c.value !in taken
  }

  /** `semantic_new`: the results' content ids in order, leaving out missing and zero ids,
      ids in `seen` and ids already taken. */
  function NewIds(results: seq<Embeddings.SearchResult>, seen: set<int>): (r: seq<int>)
  {
    if results == [] then []
    else
      var init := NewIds(results[..|results| - 1], seen);
      var c := results[|results| - 1].metadata.contentId;
      if FreshId(c, seen, init) then init + [c.value] else init
  }

  /** The semantic section's lines: a block per id whose item is still in the table. */
  function SemanticLines(ids: seq<int>, table: seq<ContentItem>, platforms: map<int, Platform>): seq<string>
  {
    if ids == [] then []
    else
      var found := ItemById(table, ids[|ids| - 1]);
      SemanticLines(ids[..|ids| - 1], table, platforms)
      + (if found.Some? then Block(found.value, PlatformOf(found.value, platforms)) else [])
  }

  function KeywordHits(question: string, table: seq<ContentItem>, platformIds: seq<int>,
                       platforms: map<int, Platform>): seq<Hit>
  {
    TopHits(question, table, platformIds, platforms, KeywordHitCount)
  }

  /** `n_results=5` of the semantic search. */
  const SemanticResultCount := 5

  /** The semantic search of `_build_context`: the creator's store, holding `entries`,
      searched for the first 500 characters of the question, five results at most. An
      `Err` stands for the exception the context builder swallows. */
  function SemanticSearch(question: string, entries: seq<Embeddings.Entry>, embedder: Embeddings.Embedder)
    : Result<seq<Embeddings.SearchResult>, string>
  {
    Embeddings.SearchSpec(entries, Take(question, MaxKeywordExtractChars), SemanticResultCount,
                          embedder.provider, embedder.hasClient, embedder.sim)
  }

  /** An empty store gives no results; otherwise a successful search gives five results,
      or one per entry with a vector when there are fewer, each from the store, best first. */
  lemma SemanticSearchFacts(question: string, entries: seq<Embeddings.Entry>, embedder: Embeddings.Embedder)
    ensures entries == [] ==> SemanticSearch(question, entries, embedder) == Ok([])
    ensures SemanticSearch(question, entries, embedder).Ok? && entries != [] ==>
      var q := Embeddings.EmbedAll([Take(question, MaxKeywordExtractChars)], embedder.provider, embedder.hasClient).value[0];
      var r := SemanticSearch(question, entries, embedder).value;
      var found := |Embeddings.Matches(entries, q, embedder.sim)|;
      && |r| == (if found < SemanticResultCount then found else SemanticResultCount)
      && (forall i :: 0 <= i < |r| ==> Embeddings.FromEntry(entries, q, embedder.sim, r[i]))
      && (forall i, j :: 0 <= i < j < |r| ==> r[i].distance <= r[j].distance)
  {
    var query := Take(question, MaxKeywordExtractChars);
    if entries != [] && SemanticSearch(question, entries, embedder).Ok? {
      var q := Embeddings.EmbedAll([query], embedder.provider, embedder.hasClient).value[0];
      Embeddings.SearchFacts(entries, query, SemanticResultCount, embedder.provider, embedder.hasClient, embedder.sim, q);
    }
  }

  /** The ids the semantic section takes, given the search outcome. */
  function SemanticIds(question: string, table: seq<ContentItem>, platformIds: seq<int>,
                       platforms: map<int, Platform>,
                       semantic: Result<seq<Embeddings.SearchResult>, string>): seq<int>
  {
    if semantic.Err? then []
    else NewIds(semantic.value, HitIdSet(KeywordHits(question, table, platformIds, platforms)))
  }

  /** `parts` before the fallback line, given the keyword hits and the semantic ids. */
  function Sections(hits: seq<Hit>, ids: seq<int>, table: seq<ContentItem>, platforms: map<int, Platform>): seq<string>
  {
    (if hits == [] then [] else [KeywordHeader] + KeywordLines(hits))
    + (if ids == [] then [] else [SemanticHeader] + SemanticLines(ids, table, platforms))
  }

  /** The fallback line when there are no parts, the join, and the budget guard. */
  function Assemble(parts: seq<string>): string
  {
    Cap(Join(if parts == [] then [NothingMatched] else parts, "\n"), MaxContextChars, ContextMarker)
  }

  function ContextText(question: string, table: seq<ContentItem>, platformIds: seq<int>,
                       platforms: map<int, Platform>,
                       semantic: Result<seq<Embeddings.SearchResult>, string>): string
  {
    if platformIds == [] then NoContentYet
    else Assemble(Sections(KeywordHits(question, table, platformIds, platforms),
                           SemanticIds(question, table, platformIds, platforms, semantic), table, platforms))
  }

  /** Every id in `s` once. */
  predicate DistinctInts(s: seq<int>)
  {
    forall i, j :: 0 <= i < j < |s| ==> s[i] != s[j]
  }

  /** The semantic ids are distinct, never zero and never in `seen`; and a result whose
      id is present, not zero and not in `seen` has its id taken. */
  lemma {:induction false} NewIdsFacts(results: seq<Embeddings.SearchResult>, seen: set<int>)
    ensures DistinctInts(NewIds(results, seen))
    ensures forall x :: x in NewIds(results, seen) ==> x != 0 && x !in seen
    ensures forall i :: (0 <= i < |results| && results[i].metadata.contentId.Some?
              && results[i].metadata.contentId.value != 0 && results[i].metadata.contentId.value !in seen) ==>
              results[i].metadata.contentId.value in NewIds(results, seen)
  {
    if results != [] {
      var init := results[..|results| - 1];
      NewIdsFacts(init, seen);
      forall i | 0 <= i < |init| ensures results[i] == init[i] {
      }
    }
  }

  /** The ids of the items the context shows, in order. */
  function UsedIds(question: string, table: seq<ContentItem>, platformIds: seq<int>,
                   platforms: map<int, Platform>,
                   semantic: Result<seq<Embeddings.SearchResult>, string>): seq<int>
  {
    HitIds(KeywordHits(question, table, platformIds, platforms))
    + SemanticIds(question, table, platformIds, platforms, semantic)
  }

  /** Each content id is shown at most once: keyword hits are distinct items, and the
      semantic section skips ids the keyword section showed, missing and zero ids, and
      repeats. Every present, non-zero id of the semantic results is shown somewhere. */
  lemma ContextUsesIdsOnce(question: string, table: seq<ContentItem>, platformIds: seq<int>,
                           platforms: map<int, Platform>, results: seq<Embeddings.SearchResult>)
    requires DistinctIds(table)
    ensures DistinctInts(UsedIds(question, table, platformIds, platforms, Ok(results)))
    ensures forall i :: (0 <= i < |results| && results[i].metadata.contentId.Some?
              && results[i].metadata.contentId.value != 0) ==>
              results[i].metadata.contentId.value in UsedIds(question, table, platformIds, platforms, Ok(results))
  {
    var hits := KeywordHits(question, table, platformIds, platforms);
    TopHitsFacts(question, table, platformIds, platforms, KeywordHitCount);
    UsedOnce(hits, results);
  }

  /** `ContextUsesIdsOnce` for any keyword hits of distinct items. */
  lemma UsedOnce(hits: seq<Hit>, results: seq<Embeddings.SearchResult>)
    requires DistinctTags(hits, HitId)
    ensures DistinctInts(HitIds(hits) + NewIds(results, HitIdSet(hits)))
    ensures forall i :: (0 <= i < |results| && results[i].metadata.contentId.Some?
              && results[i].metadata.contentId.value != 0) ==>
              results[i].metadata.contentId.value in HitIds(hits) + NewIds(results, HitIdSet(hits))
  {
    UsedDistinct(hits, results);
    UsedCovers(hits, results);
  }

  /** The keyword ids followed by the semantic ids repeat nothing. */
  lemma UsedDistinct(hits: seq<Hit>, results: seq<Embeddings.SearchResult>)
    requires DistinctTags(hits, HitId)
    ensures DistinctInts(HitIds(hits) + NewIds(results, HitIdSet(hits)))
  {
    var seen := HitIdSet(hits);
    var k := HitIds(hits);
    var ids := NewIds(results, seen);
    NewIdsFacts(results, seen);
    var used := k + ids;
    forall i, j | 0 <= i < j < |used| ensures used[i] != used[j] {
      if j < |k| {
        assert used[i] == hits[i].item.id && used[j] == hits[j].item.id;
      } else if i >= |k| {
        assert used[i] == ids[i - |k|] && used[j] == ids[j - |k|];
      } else {
        assert used[i] == hits[i].item.id;
        assert hits[i] in hits;
        assert used[j] == ids[j - |k|] && ids[j - |k|] in ids;
      }
    }
  }

  /** Every present, non-zero semantic id is among the keyword ids or the semantic ids. */
  lemma UsedCovers(hits: seq<Hit>, results: seq<Embeddings.SearchResult>)
    ensures forall i :: (0 <= i < |results| && results[i].metadata.contentId.Some?
              && results[i].metadata.contentId.value != 0) ==>
              results[i].metadata.contentId.value in HitIds(hits) + NewIds(results, HitIdSet(hits))
  {
    var seen := HitIdSet(hits);
    var k := HitIds(hits);
    var ids := NewIds(results, seen);
    NewIdsFacts(results, seen);
    var used := k + ids;
    forall i | 0 <= i < |results| && results[i].metadata.contentId.Some? && results[i].metadata.contentId.value != 0
      ensures results[i].metadata.contentId.value in used
    {
      var c := results[i].metadata.contentId.value;
      if c in seen {
        var h :| h in hits && h.item.id == c;
        var m :| 0 <= m < |hits| && hits[m] == h;
        assert used[m] == c;
      } else {
        assert c in ids;
      }
    }
  }

  /** The assembled sections never read "No content data available yet.". */
  lemma AssembleNotNoContentYet(hits: seq<Hit>, ids: seq<int>, table: seq<ContentItem>, platforms: map<int, Platform>)
    ensures Assemble(Sections(hits, ids, table, platforms)) != NoContentYet
  {
    var parts := Sections(hits, ids, table, platforms);
    if parts == [] {
      assert Join([NothingMatched], "\n") == NothingMatched;
      assert NothingMatched[3] != NoContentYet[3];
    } else {
      JoinStartsWithFirst(parts, "\n");
      var joined := Join(parts, "\n");
      assert parts[0] == KeywordHeader || parts[0] == SemanticHeader;
      assert parts[0][0] == '#' || parts[0][0] == '\n';
      assert joined[..|parts[0]|] == parts[0];
      assert joined[..|parts[0]|][0] == joined[0];
      assert Assemble(parts)[0] == joined[0];
      assert NoContentYet[0] == 'N';
    }
  }

  /** The context is "No content data available yet." exactly when the creator has no
      platforms, whatever the searches found: otherwise it is the other fallback sentence
      or starts with a section header. */
  lemma ContextWithoutPlatforms(question: string, table: seq<ContentItem>, platformIds: seq<int>,
                                platforms: map<int, Platform>,
                                semantic: Result<seq<Embeddings.SearchResult>, string>)
    ensures ContextText(question, table, platformIds, platforms, semantic) == NoContentYet <==> platformIds == []
  {
    if platformIds != [] {
      AssembleNotNoContentYet(KeywordHits(question, table, platformIds, platforms),
                              SemanticIds(question, table, platformIds, platforms, semantic), table, platforms);
    }
  }

  lemma FallbackStart()
    ensures NothingMatched[0] == 'N'
  {
  }

  /** The context is the fallback sentence exactly when neither search contributed a
      section; otherwise it starts with a section header. */
  lemma ContextFallback(hits: seq<Hit>, ids: seq<int>, table: seq<ContentItem>, platforms: map<int, Platform>)
    ensures Assemble(Sections(hits, ids, table, platforms)) == NothingMatched <==> hits == [] && ids == []
  {
    var parts := Sections(hits, ids, table, platforms);
    if parts != [] {
      JoinStartsWithFirst(parts, "\n");
      var joined := Join(parts, "\n");
      var first := parts[0];
      if hits != [] {
        assert first == KeywordHeader;
        assert first[0] == '#';
      } else {
        assert first == SemanticHeader;
        assert first[0] == '\n';
      }
      assert joined[..|first|] == first;
      assert joined[..|first|][0] == joined[0];
      assert Assemble(parts)[0] == joined[0];
      FallbackStart();
    } else {
      assert Join([NothingMatched], "\n") == NothingMatched;
    }
  }

  /** The context is cut to 60000 characters plus a marker exactly when the joined parts
      are longer than that. */
  lemma ContextBudget(parts: seq<string>)
    ensures var joined := Join(if parts == [] then [NothingMatched] else parts, "\n");
      && |Assemble(parts)| <= MaxContextChars + |ContextMarker|
      && (|joined| <= MaxContextChars ==> Assemble(parts) == joined)
      && (|joined| > MaxContextChars ==>
            StartsWith(Assemble(parts), joined[..MaxContextChars]) && EndsWith(Assemble(parts), ContextMarker))
  {
    var joined := Join(if parts == [] then [NothingMatched] else parts, "\n");
    CapBound(joined, MaxContextChars, ContextMarker);
    if |joined| > MaxContextChars {
      var r := joined[..MaxContextChars] + ContextMarker;
      assert r[..MaxContextChars] == joined[..MaxContextChars];
      assert r[|r| - |ContextMarker|..] == ContextMarker;
    }
  }

  // ---------------------------------------------------------------------------
  // The loops of _build_context
  // ---------------------------------------------------------------------------

  /** The keyword hits' blocks, noting each shown id in `seen`. */
  method KeywordSection(hits: seq<Hit>) returns (lines: seq<string>, seen: set<int>)
    ensures lines == KeywordLines(hits) && seen == HitIdSet(hits)
  {
    lines, seen := [], {};
    var i := 0;
    while i < |hits|
      invariant 0 <= i <= |hits|
      invariant lines == KeywordLines(hits[..i]) && seen == HitIdSet(hits[..i])
    {
      assert hits[..i + 1] == hits[..i] + [hits[i]];
      assert hits[..i + 1][..i] == hits[..i];
      HitIdSetSnoc(hits[..i], hits[i]);
      lines := lines + Block(hits[i].item, hits[i].platform);
      seen := seen + {hits[i].item.id};
      i := i + 1;
    }
    assert hits[..i] == hits;
  }

  /** `semantic_new`, growing `seen` as ids are taken. */
  method TakeNewIds(results: seq<Embeddings.SearchResult>, seen0: set<int>) returns (ids: seq<int>, seen: set<int>)
    ensures ids == NewIds(results, seen0)
    ensures seen == seen0 + set x | x in ids
  {
    ids, seen := [], seen0;
    var j := 0;
    while j < |results|
      invariant 0 <= j <= |results|
      invariant ids == NewIds(results[..j], seen0)
      invariant seen == seen0 + set x | x in ids
    {
      assert results[..j + 1][..j] == results[..j];
      var c := results[j].metadata.contentId;
      assert results[..j + 1][j] == results[j];
      if c.Some? && c.value != 0 && c.value !in seen {
        ids := ids + [c.value];
        seen := seen + {c.value};
      }
      j := j + 1;
    }
    assert results[..j] == results;
  }

  /** The semantic blocks, one per id still in the table. */
  method SemanticSection(ids: seq<int>, table: seq<ContentItem>, platforms: map<int, Platform>)
    returns (lines: seq<string>)
    ensures lines == SemanticLines(ids, table, platforms)
  {
    lines := [];
    var i := 0;
    while i < |ids|
      invariant 0 <= i <= |ids|
      invariant lines == SemanticLines(ids[..i], table, platforms)
    {
      assert ids[..i + 1][..i] == ids[..i];
      assert ids[..i + 1][i] == ids[i];
      var item := ItemById(table, ids[i]);
      if item.Some? {
        lines := lines + Block(item.value, PlatformOf(item.value, platforms));
      }
      i := i + 1;
    }
    assert ids[..i] == ids;
  }

  /** The semantic half of `_build_context`, after the keyword hits: the ids not yet
      seen and their section, or nothing when the search raised. */
  method SemanticPart(hits: seq<Hit>, seen: set<int>, table: seq<ContentItem>, platforms: map<int, Platform>,
                      semantic: Result<seq<Embeddings.SearchResult>, string>) returns (ids: seq<int>, lines: seq<string>)
    requires seen == HitIdSet(hits)
    ensures ids == (if semantic.Err? then [] else NewIds(semantic.value, HitIdSet(hits)))
    ensures lines == (if ids == [] then [] else [SemanticHeader] + SemanticLines(ids, table, platforms))
  {
    ids, lines := [], [];
    if semantic.Ok? && semantic.value != [] {
      var seen2;
      ids, seen2 := TakeNewIds(semantic.value, seen);
      if ids != [] {
        var section := SemanticSection(ids, table, platforms);
        lines := [SemanticHeader] + section;
      }
    }
  }

  /** The two searches of `_build_context`: the keyword section, then the semantic
      search of the creator's store and its section. */
  method GatherSections(question: string, table: seq<ContentItem>, platformIds: seq<int>,
                        platforms: map<int, Platform>, entries: seq<Embeddings.Entry>,
                        embedder: Embeddings.Embedder) returns (parts: seq<string>)
    ensures parts == Sections(KeywordHits(question, table, platformIds, platforms),
                              SemanticIds(question, table, platformIds, platforms,
                                          SemanticSearch(question, entries, embedder)), table, platforms)
  {
    var hits := Search(question, table, platformIds, platforms, KeywordHitCount);
    var lines, seen := KeywordSection(hits);
    var semantic := Embeddings.SearchEntries(entries, Take(question, MaxKeywordExtractChars), SemanticResultCount,
                                             embedder.provider, embedder.hasClient, embedder.sim);
    var ids, more := SemanticPart(hits, seen, table, platforms, semantic);
    parts := (if hits == [] then [] else [KeywordHeader] + lines) + more;
  }

  /** `_build_context(creator, question, db)` for a creator whose platforms have the ids
      `platformIds` and whose store file holds `entries`. */
  method BuildContext(question: string, table: seq<ContentItem>, platformIds: seq<int>,
                      platforms: map<int, Platform>, entries: seq<Embeddings.Entry>,
                      embedder: Embeddings.Embedder) returns (context: string)
    ensures context == ContextText(question, table, platformIds, platforms, SemanticSearch(question, entries, embedder))
  {
    if platformIds == [] {
      return NoContentYet;
    }
    var parts := GatherSections(question, table, platformIds, platforms, entries, embedder);
    if parts == [] {
      parts := [NothingMatched];
    }
    context := Join(parts, "\n");
    if |context| > MaxContextChars {
      context := context[..MaxContextChars] + ContextMarker;
    }
  }
}
