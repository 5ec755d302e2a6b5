/** The system prompt of a chat turn (`_build_system_prompt` in
    backend/services/ai_chat.py): the creator's platforms and stats, the pre-computed
    knowledge documents, the content catalog, the retrieval context and the attached
    files, each section under its own budget, and the whole under a final one. */
module Prompt {
  import opened Common
  import opened Models
  import opened Catalog

  const MaxCatalogChars: nat := 40000
  const MaxPromptContextChars: nat := 60000
  const MaxSystemPromptChars: nat := 120000

  const CatalogMarker := "\n\n[...catalog" + TruncatedToFit
  const PromptContextMarker := "\n\n[...transcripts" + TruncatedToFit
  const PromptMarker := "\n\n[System prompt" + TruncatedToFit
  const NoPlatformsLinked := "  No platforms linked"

  // ---------------------------------------------------------------------------
  // Platforms
  // ---------------------------------------------------------------------------

  predicate IsCased(c: char)
  {
    IsAsciiLetter(c)
  }

  /** `str.title()` over ASCII: a letter after a letter is lower-cased, any other letter
      upper-cased. */
  function TitleFrom(s: string, afterCased: bool): (r: string)
    ensures |r| == |s|
  {
    if s == [] then []
    else [if afterCased then LowerChar(s[0]) else UpperChar(s[0])] + TitleFrom(s[1..], IsCased(s[0]))
  }

  function TitleCase(s: string): (r: string)
    ensures |r| == |s|
  {
    TitleFrom(s, false)
  }

  /** `select(func.count(ContentItem.id)).where(ContentItem.platform_id == p.id)` */
  function ItemCount(table: seq<ContentItem>, platformId: int): nat
  {
    if table == [] then 0
    else ItemCount(table[..|table| - 1], platformId) + (if table[|table| - 1].platformId == platformId then 1 else 0)
  }

  function PlatformLine(p: Platform, table: seq<ContentItem>): string
  {
    "  - " + TitleCase(p.kind) + ": @" + p.handle + " (" + NatToString(ItemCount(table, p.id)) + " items)"
  }

  function PlatformLines(ps: seq<Platform>, table: seq<ContentItem>): (r: seq<string>)
    ensures |r| == |ps|
  {
    if ps == [] then [] else PlatformLines(ps[..|ps| - 1], table) + [PlatformLine(ps[|ps| - 1], table)]
  }

  function PlatformsText(ps: seq<Platform>, table: seq<ContentItem>): string
  {
    if ps == [] then NoPlatformsLinked else Join(PlatformLines(ps, table), "\n")
  }

  function PlatformIds(ps: seq<Platform>): (r: seq<int>)
    ensures |r| == |ps| && forall i :: 0 <= i < |r| ==> r[i] == ps[i].id
  {
    seq(|ps|, i requires 0 <= i < |ps| => ps[i].id)
  }

  // ---------------------------------------------------------------------------
  // Tier 1: knowledge documents
  // ---------------------------------------------------------------------------

  /** `{k.type: k.content for k in knowledge_entries}[kind]` over the creator's rows:
      the last row of the kind wins. */
  function KnowledgeOf(rows: seq<Knowledge>, creatorId: int, kind: string): (r: Option<string>)
    ensures r.Some? ==> exists k :: k in rows && k.creatorId == creatorId && k.kind == kind && k.content == r.value
    ensures r.None? ==> forall k :: k in rows ==> k.creatorId != creatorId || k.kind != kind
  {
    if rows == [] then None
    else
      var last := rows[|rows| - 1];
      if last.creatorId == creatorId && last.kind == kind then Some(last.content)
      else
        var r := KnowledgeOf(rows[..|rows| - 1], creatorId, kind);
        assert forall k :: k in rows ==> k in rows[..|rows| - 1] || k == last;
        r
  }

  function Tier1Sections(creator: Creator, rows: seq<Knowledge>): seq<string>
  {
    var profile := KnowledgeOf(rows, creator.id, "profile");
    var topics := KnowledgeOf(rows, creator.id, "topics");
    var style := KnowledgeOf(rows, creator.id, "style");
    (if profile.Some? then ["## Creator Profile\n" + profile.value]
     else if Truthy(creator.summary) then ["## Creator Summary\n" + creator.summary.value]
     else [])
    + (if topics.Some? then ["## Topic Clusters\n" + topics.value] else [])
    + (if style.Some? then ["## Style Analysis\n" + style.value] else [])
  }

  function Tier1Text(creator: Creator, rows: seq<Knowledge>): string
  {
    Join(Tier1Sections(creator, rows), "\n\n")
  }

  /** The profile document, when there is one, comes first and hides the creator's short
      summary; without it the summary, when not empty, takes its place. Each knowledge
      document has a section exactly when it exists, and the tier is empty exactly when
      there is nothing to show. */
  lemma Tier1Facts(creator: Creator, rows: seq<Knowledge>)
    ensures var profile := KnowledgeOf(rows, creator.id, "profile");
      && (profile.Some? ==> StartsWith(Tier1Text(creator, rows), "## Creator Profile\n" + profile.value))
      && (profile.None? && Truthy(creator.summary) ==>
            StartsWith(Tier1Text(creator, rows), "## Creator Summary\n" + creator.summary.value))
    ensures |Tier1Sections(creator, rows)| ==
      (if KnowledgeOf(rows, creator.id, "profile").Some? || Truthy(creator.summary) then 1 else 0)
      + (if KnowledgeOf(rows, creator.id, "topics").Some? then 1 else 0)
      + (if KnowledgeOf(rows, creator.id, "style").Some? then 1 else 0)
    ensures Tier1Text(creator, rows) == "" <==>
      KnowledgeOf(rows, creator.id, "profile").None? && !Truthy(creator.summary)
      && KnowledgeOf(rows, creator.id, "topics").None? && KnowledgeOf(rows, creator.id, "style").None?
  {
    var sections := Tier1Sections(creator, rows);
    if sections != [] {
      JoinStartsWithFirst(sections, "\n\n");
      assert |sections[0]| > 0 by {
        assert sections[0][0] == '#';
      }
    }
  }

  // ---------------------------------------------------------------------------
  // Stats, budgets, files
  // ---------------------------------------------------------------------------

  function Views(item: ContentItem): nat { item.views }

  function Likes(item: ContentItem): nat { item.likes }

  /** The stats line: item count and integer average views and likes over the creator's
      items, all 0 without platforms. */
  function StatsText(creatorItems: seq<ContentItem>): string
  {
    "Total content items: " + NatToString(|creatorItems|)
    + " | Average views: " + Thousands(FloorAverage(creatorItems, Views))
    + " | Average likes: " + Thousands(FloorAverage(creatorItems, Likes))
  }

  function FilePart(a: Attachment): string
  {
    "### " + a.filename + "\n```\n" + a.content + "\n```"
  }

  function FileParts(atts: seq<Attachment>): (r: seq<string>)
    ensures |r| == |atts|
  {
    if atts == [] then [] else FileParts(atts[..|atts| - 1]) + [FilePart(atts[|atts| - 1])]
  }

  /** The files section under `header`: empty without attachments. */
  function FilesSection(header: string, attachments: Option<seq<Attachment>>): string
  {
    if attachments.None? || attachments.value == [] then ""
    else header + Join(FileParts(attachments.value), "\n\n")
  }

  /** The files section is empty exactly when no file is attached; otherwise it starts
      with its header and names the first file. */
  lemma FilesSectionFacts(header: string, attachments: Option<seq<Attachment>>)
    ensures FilesSection(header, attachments) == "" <==> attachments.None? || attachments.value == []
    ensures attachments.Some? && attachments.value != [] ==>
      StartsWith(FilesSection(header, attachments), header + "### " + attachments.value[0].filename + "\n```\n")
  {
    if attachments.Some? && attachments.value != [] {
      var parts := FileParts(attachments.value);
      FilePartsAt(attachments.value);
      JoinStartsWithFirst(parts, "\n\n");
      var a := attachments.value[0];
      var j := Join(parts, "\n\n");
      assert FilePart(a) == ("### " + a.filename + "\n```\n") + (a.content + "\n```");
      assert j[..|"### " + a.filename + "\n```\n"|] == "### " + a.filename + "\n```\n";
      assert (header + j)[..|header|] == header;
    }
  }

  lemma {:induction false} FilePartsAt(atts: seq<Attachment>)
    ensures forall i :: 0 <= i < |atts| ==> FileParts(atts)[i] == FilePart(atts[i])
  {
    if atts != [] {
      var init := atts[..|atts| - 1];
      FilePartsAt(init);
      assert forall i :: 0 <= i < |init| ==> init[i] == atts[i];
    }
  }

  // ---------------------------------------------------------------------------
  // The template
  // ---------------------------------------------------------------------------

  /** The fixed wording of the template around the sections: the preamble's opening,
      the catalog, transcript and files headings and the closing instructions. The
      template holds it as a value so that the proofs about budgets and layout are
      about any wording; `Standard` is the one `_build_system_prompt` writes. */
  datatype Wording = Wording(opening: string, catalogIntro: string, contextIntro: string,
                             filesHeader: string, instructions: string)

  const Standard := Wording(
    "You are an expert content analyst with deep knowledge of creator \"",
    "\n\n## Complete Content Catalog\n" + "Every video/reel from this creator with summaries:\n\n",
    "\n\n## Relevant Full Transcripts\n"
    + "The following full transcripts were retrieved based on the user's current question:\n\n",
    "\n\n## User-Provided Reference Material\n" + "The user attached the following files with their message:\n\n",
    "\n\n## Instructions\n"
    + "- You have comprehensive knowledge about this creator from the profile, topic clusters, and style analysis above\n"
    + "- The content catalog lists EVERY video \U{2014} use it to reference specific content, identify patterns, and provide complete answers\n"
    + "- Full transcripts below are the primary source for detailed quotes and specific content analysis\n"
    + "- Reference specific posts/videos when relevant (include URLs if available)\n"
    + "- Provide data-backed insights (engagement numbers, trends, patterns)\n"
    + "- Be specific and actionable in your recommendations\n"
    + "- If the transcripts don't contain enough detail for a specific question, note what you know from the catalog/profile and suggest which videos might have more info\n")

  /** Everything before the catalog. */
  function Preamble(w: Wording, name: string, platformsText: string, stats: string, tier1: string): string
  {
    w.opening + name + "\".\n\n## Creator: " + name
    + "\nPlatforms:\n" + platformsText + "\nStats: " + stats + "\n\n" + tier1 + w.catalogIntro
  }

  /** The prompt before the final budget guard. */
  function Template(w: Wording, name: string, platformsText: string, stats: string, tier1: string,
                    catalog: string, context: string, files: string): string
  {
    Preamble(w, name, platformsText, stats, tier1) + catalog + w.contextIntro + context + "\n" + files + w.instructions
  }

  /** The system prompt for `creator`, whose platforms are `creatorPlatforms`. `table`
      is the content table, from which the catalog queries the creator's items, `rows`
      the knowledge table and `context` the retrieval context of this turn. */
  function SystemPrompt(w: Wording, creator: Creator, creatorPlatforms: seq<Platform>, table: seq<ContentItem>,
                        platforms: map<int, Platform>, rows: seq<Knowledge>,
                        context: string, attachments: Option<seq<Attachment>>): string
  {
    var ids := PlatformIds(creatorPlatforms);
    var creatorItems := if ids == [] then [] else OfPlatforms(table, ids);
    var catalog := Cap(CatalogText(ids, Query(table, ids), platforms), MaxCatalogChars, CatalogMarker);
    var ctx := Cap(context, MaxPromptContextChars, PromptContextMarker);
    Cap(Template(w, creator.name, PlatformsText(creatorPlatforms, table), StatsText(creatorItems),
                 Tier1Text(creator, rows), catalog, ctx, FilesSection(w.filesHeader, attachments)),
        MaxSystemPromptChars, PromptMarker)
  }

  /** Within the final budget the prompt holds the capped catalog and the capped context
      whole; beyond it, the prompt is the first 120000 characters and the marker. */
  lemma PromptBudget(w: Wording, name: string, platformsText: string, stats: string, tier1: string,
                     catalog: string, context: string, files: string)
    ensures var raw := Template(w, name, platformsText, stats, tier1,
                                Cap(catalog, MaxCatalogChars, CatalogMarker),
                                Cap(context, MaxPromptContextChars, PromptContextMarker), files);
      var prompt := Cap(raw, MaxSystemPromptChars, PromptMarker);
      && |prompt| <= MaxSystemPromptChars + |PromptMarker|
      && (|raw| <= MaxSystemPromptChars ==>
            prompt == raw
            && Contains(prompt, Cap(catalog, MaxCatalogChars, CatalogMarker))
            && Contains(prompt, Cap(context, MaxPromptContextChars, PromptContextMarker)))
      && (|raw| > MaxSystemPromptChars ==> StartsWith(prompt, raw[..MaxSystemPromptChars]) && EndsWith(prompt, PromptMarker))
  {
    var cat := Cap(catalog, MaxCatalogChars, CatalogMarker);
    var ctx := Cap(context, MaxPromptContextChars, PromptContextMarker);
    var pre := Preamble(w, name, platformsText, stats, tier1);
    var raw := Template(w, name, platformsText, stats, tier1, cat, ctx, files);
    CapBound(raw, MaxSystemPromptChars, PromptMarker);
    var tail := "\n" + files + w.instructions;
    assert raw == pre + cat + (w.contextIntro + ctx + tail);
    ContainsMiddle(pre, cat, w.contextIntro + ctx + tail);
    assert raw == (pre + cat + w.contextIntro) + ctx + tail;
    ContainsMiddle(pre + cat + w.contextIntro, ctx, tail);
    if |raw| > MaxSystemPromptChars {
      var r := raw[..MaxSystemPromptChars] + PromptMarker;
      assert r[..MaxSystemPromptChars] == raw[..MaxSystemPromptChars];
      assert r[|r| - |PromptMarker|..] == PromptMarker;
    }
  }

  /** A context the context builder already cut (60000 characters and its own marker) is
      longer than this section's budget, so it is cut again at the same place: only this
      section's marker survives. */
  lemma ContextCutTwice(context: string, firstMarker: string)
    requires |context| > MaxPromptContextChars && |firstMarker| > 0
    ensures Cap(context[..MaxPromptContextChars] + firstMarker, MaxPromptContextChars, PromptContextMarker)
            == context[..MaxPromptContextChars] + PromptContextMarker
  {
    var once := context[..MaxPromptContextChars] + firstMarker;
    assert once[..MaxPromptContextChars] == context[..MaxPromptContextChars];
  }

  // ---------------------------------------------------------------------------
  // The loops of _build_system_prompt
  // ---------------------------------------------------------------------------

  lemma PlatformLinesSnoc(ps: seq<Platform>, p: Platform, table: seq<ContentItem>)
    ensures PlatformLines(ps + [p], table) == PlatformLines(ps, table) + [PlatformLine(p, table)]
  {
    assert (ps + [p])[..|ps|] == ps;
  }

  lemma FilePartsSnoc(atts: seq<Attachment>, a: Attachment)
    ensures FileParts(atts + [a]) == FileParts(atts) + [FilePart(a)]
  {
    assert (atts + [a])[..|atts|] == atts;
  }

  /** `platforms_info`, one line per platform. */
  method PlatformsInfo(ps: seq<Platform>, table: seq<ContentItem>) returns (text: string)
    ensures text == PlatformsText(ps, table)
  {
    var lines: seq<string> := [];
    var i := 0;
    while i < |ps|
      invariant 0 <= i <= |ps|
      invariant lines == PlatformLines(ps[..i], table)
    {
      assert ps[..i + 1] == ps[..i] + [ps[i]];
      PlatformLinesSnoc(ps[..i], ps[i], table);
      lines := lines + [PlatformLine(ps[i], table)];
      i := i + 1;
    }
    assert ps[..i] == ps;
    text := if lines == [] then NoPlatformsLinked else Join(lines, "\n");
  }

  /** `files_section`, one part per attachment. */
  method BuildFilesSection(header: string, attachments: Option<seq<Attachment>>) returns (section: string)
    ensures section == FilesSection(header, attachments)
  {
    section := "";
    if attachments.Some? && attachments.value != [] {
      var atts := attachments.value;
      var parts: seq<string> := [];
      var i := 0;
      while i < |atts|
        invariant 0 <= i <= |atts|
        invariant parts == FileParts(atts[..i])
      {
        assert atts[..i + 1] == atts[..i] + [atts[i]];
        FilePartsSnoc(atts[..i], atts[i]);
        parts := parts + [FilePart(atts[i])];
        i := i + 1;
      }
      assert atts[..i] == atts;
      section := header + Join(parts, "\n\n");
    }
  }

  /** `_build_system_prompt`. */
  method BuildSystemPrompt(w: Wording, creator: Creator, creatorPlatforms: seq<Platform>, table: seq<ContentItem>,
                           platforms: map<int, Platform>, rows: seq<Knowledge>,
                           context: string, attachments: Option<seq<Attachment>>) returns (prompt: string)
    ensures prompt == SystemPrompt(w, creator, creatorPlatforms, table, platforms, rows, context, attachments)
  {
    var platformsText := PlatformsInfo(creatorPlatforms, table);
    var tier1 := Tier1Text(creator, rows);
    var ids := PlatformIds(creatorPlatforms);
    var catalog := BuildCatalog(ids, table, platforms);
    var creatorItems := if ids == [] then [] else OfPlatforms(table, ids);
    var stats := StatsText(creatorItems);
    if |catalog| > MaxCatalogChars {
      catalog := catalog[..MaxCatalogChars] + CatalogMarker;
    }
    assert catalog == Cap(CatalogText(ids, Query(table, ids), platforms), MaxCatalogChars, CatalogMarker);
    var ctx := context;
    if |ctx| > MaxPromptContextChars {
      ctx := ctx[..MaxPromptContextChars] + PromptContextMarker;
    }
    assert ctx == Cap(context, MaxPromptContextChars, PromptContextMarker);
    var files := BuildFilesSection(w.filesHeader, attachments);
    var raw := Template(w, creator.name, platformsText, stats, tier1, catalog, ctx, files);
    prompt := raw;
    if |prompt| > MaxSystemPromptChars {
      prompt := prompt[..MaxSystemPromptChars] + PromptMarker;
    }
    assert prompt == Cap(raw, MaxSystemPromptChars, PromptMarker);
  }
}
