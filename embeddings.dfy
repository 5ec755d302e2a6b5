/** The vector store of one creator (backend/services/embeddings.py): documents built from
    content items, embedded in batches by an outside provider, appended under the key
    `content_{id}`, and searched by similarity to a query. The provider and the similarity
    measure are parameters; the store's file is the `entries` field. */
module Embeddings {
  import opened Common
  import opened Dates
  import opened Models
  import opened Sorting
  import opened Batching

  type Vector = seq<real>

  /** The embedding endpoint: the vectors of a batch of texts, or the error it raised. */
  type Provider = seq<string> -> Result<seq<Vector>, string>

  const EmbedBatchSize: nat := 100
  const EmbedTextLimit: nat := 8000
  const CaptionLimit: nat := 2000
  const TranscriptLimit: nat := 4000
  const NoClientError := "OpenAI API key required for embeddings"
  /** What indexing the provider's empty answer for the query raises. */
  const NoQueryVector := "list index out of range"

  // ---------------------------------------------------------------------------
  // _build_document_text
  // ---------------------------------------------------------------------------

  /** The label line and the optional title line. */
  function HeadParts(item: ContentItem, platform: Option<Platform>): seq<string>
  {
    ["[" + PlatformLabel(item, platform) + "]"]
    + (if Truthy(item.title) then ["Title: " + item.title.value] else [])
  }

  function CaptionParts(item: ContentItem): seq<string>
  {
    if Truthy(item.caption) then ["Caption: " + Take(item.caption.value, CaptionLimit)] else []
  }

  function TranscriptParts(item: ContentItem): seq<string>
  {
    if Truthy(item.transcript) && item.transcript != item.caption
    then ["Transcript: " + Take(item.transcript.value, TranscriptLimit)] else []
  }

  /** The stats line and the optional date line. */
  function TailParts(item: ContentItem): seq<string>
  {
    ["Stats: " + NatToString(item.views) + " views, " + NatToString(item.likes) + " likes, "
     + NatToString(item.comments) + " comments, " + item.duration + "s"]
    + (if item.timestamp.Some? then ["Date: " + IsoDay(item.timestamp.value)] else [])
  }

  function DocumentParts(item: ContentItem, platform: Option<Platform>): seq<string>
  {
    HeadParts(item, platform) + CaptionParts(item) + TranscriptParts(item) + TailParts(item)
  }

  function DocumentText(item: ContentItem, platform: Option<Platform>): string
  {
    Join(DocumentParts(item, platform), "\n")
  }

  lemma DocumentNotBlank(item: ContentItem, platform: Option<Platform>)
    ensures StartsWith(DocumentText(item, platform), "[" + PlatformLabel(item, platform) + "]")
    ensures Strip(DocumentText(item, platform)) != ""
  {
    var text := DocumentText(item, platform);
    JoinStartsWithFirst(DocumentParts(item, platform), "\n");
    assert text[0] == '[';
    StripEmptyIffBlank(text);
    assert !IsSpace(text[0]);
  }

  lemma LabelOrTitlePlain(s: string)
    requires |s| >= 2 && (s[0] == '[' || s[..2] == "Ti")
    ensures !StartsWith(s, "Caption: ") && !StartsWith(s, "Transcript: ")
  {
    Mismatch(s, "Caption: ", 0);
    if s[0] == '[' {
      Mismatch(s, "Transcript: ", 0);
    } else {
      assert s[1] == 'i';
      Mismatch(s, "Transcript: ", 1);
    }
  }

  lemma HeadPartsPlain(item: ContentItem, platform: Option<Platform>)
    ensures !HasPart(HeadParts(item, platform), "Caption: ")
    ensures !HasPart(HeadParts(item, platform), "Transcript: ")
  {
    var h := HeadParts(item, platform);
    assert h[0][0] == '[';
    assert Truthy(item.title) ==> h[1][..2] == "Ti";
    forall k | 0 <= k < |h| ensures !StartsWith(h[k], "Caption: ") && !StartsWith(h[k], "Transcript: ") {
      LabelOrTitlePlain(h[k]);
    }
  }

  lemma TailPartsPlain(item: ContentItem)
    ensures !HasPart(TailParts(item), "Caption: ")
    ensures !HasPart(TailParts(item), "Transcript: ")
  {
    var t := TailParts(item);
    forall k | 0 <= k < |t| ensures !StartsWith(t[k], "Caption: ") && !StartsWith(t[k], "Transcript: ") {
      assert t[k][0] == 'S' || t[k][0] == 'D';
      Mismatch(t[k], "Caption: ", 0);
      Mismatch(t[k], "Transcript: ", 0);
    }
  }

  lemma CaptionPartsFacts(item: ContentItem)
    ensures HasPart(CaptionParts(item), "Caption: ") <==> Truthy(item.caption)
    ensures !HasPart(CaptionParts(item), "Transcript: ")
  {
    var c := CaptionParts(item);
    if Truthy(item.caption) {
      assert c[0][0] == 'C';
      Mismatch(c[0], "Transcript: ", 0);
      assert StartsWith(c[0], "Caption: ");
    }
  }

  lemma TranscriptPartsFacts(item: ContentItem)
    ensures HasPart(TranscriptParts(item), "Transcript: ") <==>
            Truthy(item.transcript) && item.transcript != item.caption
    ensures !HasPart(TranscriptParts(item), "Caption: ")
  {
    var t := TranscriptParts(item);
    if Truthy(item.transcript) && item.transcript != item.caption {
      assert t[0][0] == 'T';
      Mismatch(t[0], "Caption: ", 0);
      assert StartsWith(t[0], "Transcript: ");
    }
  }

  /** The document starts with the bracketed platform label, so it is never blank: the
      `text.strip()` test of `embed_content_items` never skips an item. The caption is cut
      to 2000 characters and the transcript to 4000, and the transcript is left out
      when it is missing or equal to the caption. */
  lemma DocumentTextFacts(item: ContentItem, platform: Option<Platform>)
    ensures StartsWith(DocumentText(item, platform), "[" + PlatformLabel(item, platform) + "]")
    ensures Strip(DocumentText(item, platform)) != ""
    ensures HasPart(DocumentParts(item, platform), "Caption: ") <==> Truthy(item.caption)
    ensures Truthy(item.caption) ==> "Caption: " + Take(item.caption.value, CaptionLimit) in DocumentParts(item, platform)
    ensures HasPart(DocumentParts(item, platform), "Transcript: ") <==>
            Truthy(item.transcript) && item.transcript != item.caption
    ensures Truthy(item.transcript) && item.transcript != item.caption ==>
            "Transcript: " + Take(item.transcript.value, TranscriptLimit) in DocumentParts(item, platform)
  {
    DocumentNotBlank(item, platform);
    var h, c, t, z := HeadParts(item, platform), CaptionParts(item), TranscriptParts(item), TailParts(item);
    HeadPartsPlain(item, platform);
    TailPartsPlain(item);
    CaptionPartsFacts(item);
    TranscriptPartsFacts(item);
    HasPartAppend(h, c, "Caption: ");
    HasPartAppend(h + c, t, "Caption: ");
    HasPartAppend(h + c + t, z, "Caption: ");
    HasPartAppend(h, c, "Transcript: ");
    HasPartAppend(h + c, t, "Transcript: ");
    HasPartAppend(h + c + t, z, "Transcript: ");
    if Truthy(item.caption) {
      assert c[0] in h + c + t + z;
    }
    if Truthy(item.transcript) && item.transcript != item.caption {
      assert t[0] in h + c + t + z;
    }
  }

  // ---------------------------------------------------------------------------
  // _embed_texts
  // ---------------------------------------------------------------------------

  /** `[t[:8000] for t in batch]` */
  function Truncated(texts: seq<string>): (r: seq<string>)
    ensures |r| == |texts| && forall i :: 0 <= i < |r| ==> r[i] == Take(texts[i], EmbedTextLimit)
  {
    seq(|texts|, i requires 0 <= i < |texts| => Take(texts[i], EmbedTextLimit))
  }

  /** The vectors of batches `k`, `k + 1`, ... in order; the first failing call raises. */
  function EmbedFrom(texts: seq<string>, provider: Provider, k: nat): Result<seq<Vector>, string>
    decreases NumBatches(|texts|, EmbedBatchSize) - k
  {
    if k >= NumBatches(|texts|, EmbedBatchSize) then Ok([])
    else match provider(Truncated(Batch(texts, EmbedBatchSize, k)))
      case Err(e) => Err(e)
      case Ok(v) =>
        match EmbedFrom(texts, provider, k + 1)
        case Err(e) => Err(e)
        case Ok(rest) => Ok(v + rest)
  }

  function EmbedAll(texts: seq<string>, provider: Provider, hasClient: bool): Result<seq<Vector>, string>
  {
    if !hasClient then Err(NoClientError) else EmbedFrom(texts, provider, 0)
  }

  /** `_embed_texts`: one provider call per batch of 100 texts, each cut to 8000
      characters, the vectors concatenated in order. */
  method EmbedTexts(texts: seq<string>, provider: Provider, hasClient: bool) returns (r: Result<seq<Vector>, string>)
    ensures r == EmbedAll(texts, provider, hasClient)
  {
    if !hasClient {
      return Err(NoClientError);
    }
    var results: seq<Vector> := [];
    var k := 0;
    var total := NumBatches(|texts|, EmbedBatchSize);
    assert forall rest: seq<Vector> :: [] + rest == rest;
    while k < total
      invariant 0 <= k <= total
      invariant EmbedAll(texts, provider, hasClient) ==
        match EmbedFrom(texts, provider, k)
        case Ok(rest) => Ok(results + rest)
        case Err(e) => Err(e)
    {
      var batch := Truncated(Batch(texts, EmbedBatchSize, k));
      var response := provider(batch);
      if response.Err? {
        return Err(response.error);
      }
      assert forall rest: seq<Vector> :: results + (response.value + rest) == (results + response.value) + rest;
      results := results + response.value;
      k := k + 1;
    }
    assert results + [] == results;
    return Ok(results);
  }

  /** Every call sends at most 100 texts of at most 8000 characters, and the calls
      together send every text once, in order. */
  lemma BatchesSent(texts: seq<string>)
    ensures forall k :: 0 <= k < NumBatches(|texts|, EmbedBatchSize) ==>
              |Truncated(Batch(texts, EmbedBatchSize, k))| <= EmbedBatchSize
              && forall t :: t in Truncated(Batch(texts, EmbedBatchSize, k)) ==> |t| <= EmbedTextLimit
    ensures Flatten(Batches(texts, EmbedBatchSize)) == texts
  {
    BatchesPartition(texts, EmbedBatchSize);
    forall k | 0 <= k < NumBatches(|texts|, EmbedBatchSize)
      ensures |Batch(texts, EmbedBatchSize, k)| <= EmbedBatchSize
    {
      assert Batches(texts, EmbedBatchSize)[k] == Batch(texts, EmbedBatchSize, k);
    }
  }

  /** A provider that embeds each text on its own. */
  ghost predicate Elementwise(provider: Provider, f: string -> Vector)
  {
    forall b :: provider(b) == Ok(seq(|b|, i requires 0 <= i < |b| => f(b[i])))
  }

  /** Each text, cut to 8000 characters, embedded on its own. */
  function Embedded(f: string -> Vector, texts: seq<string>): (r: seq<Vector>)
    ensures |r| == |texts|
  {
    seq(|texts|, i requires 0 <= i < |texts| => f(Take(texts[i], EmbedTextLimit)))
  }

  lemma EmbeddedAppend(f: string -> Vector, a: seq<string>, b: seq<string>)
    ensures Embedded(f, a + b) == Embedded(f, a) + Embedded(f, b)
  {
  }

  /** An elementwise provider embeds batch `k` text by text. */
  lemma BatchEmbedded(texts: seq<string>, provider: Provider, f: string -> Vector, k: nat)
    requires Elementwise(provider, f)
    requires k < NumBatches(|texts|, EmbedBatchSize)
    ensures provider(Truncated(Batch(texts, EmbedBatchSize, k))) == Ok(Embedded(f, Batch(texts, EmbedBatchSize, k)))
  {
    var batch := Batch(texts, EmbedBatchSize, k);
    var b := Truncated(batch);
    var v := seq(|b|, i requires 0 <= i < |b| => f(b[i]));
    assert provider(b) == Ok(v);
    assert v == Embedded(f, batch);
  }

  /** The texts from batch `k` on are batch `k` followed by the texts from batch `k + 1` on. */
  lemma SuffixFromBatch(texts: seq<string>, k: nat)
    requires k < NumBatches(|texts|, EmbedBatchSize)
    ensures texts[Min(k * EmbedBatchSize, |texts|)..]
         == Batch(texts, EmbedBatchSize, k) + texts[Min((k + 1) * EmbedBatchSize, |texts|)..]
  {
    BatchStart(|texts|, EmbedBatchSize, k);
    MulSucc(k, EmbedBatchSize);
    var lo := k * EmbedBatchSize;
    var hi := Min(lo + EmbedBatchSize, |texts|);
    assert Min((k + 1) * EmbedBatchSize, |texts|) == hi;
    assert Batch(texts, EmbedBatchSize, k) == texts[lo..hi];
    assert texts[lo..] == texts[lo..hi] + texts[hi..];
  }

  lemma {:induction false} EmbedFromElementwise(texts: seq<string>, provider: Provider, f: string -> Vector, k: nat)
    requires Elementwise(provider, f)
    requires k <= NumBatches(|texts|, EmbedBatchSize)
    ensures EmbedFrom(texts, provider, k) == Ok(Embedded(f, texts[Min(k * EmbedBatchSize, |texts|)..]))
    decreases NumBatches(|texts|, EmbedBatchSize) - k
  {
    var q := NumBatches(|texts|, EmbedBatchSize);
    NumBatchesBounds(|texts|, EmbedBatchSize);
    if k < q {
      var batch := Batch(texts, EmbedBatchSize, k);
      var rest := texts[Min((k + 1) * EmbedBatchSize, |texts|)..];
      EmbedFromElementwise(texts, provider, f, k + 1);
      BatchEmbedded(texts, provider, f, k);
      SuffixFromBatch(texts, k);
      EmbeddedAppend(f, batch, rest);
    } else {
      MulLe(q, k, EmbedBatchSize);
      assert texts[Min(k * EmbedBatchSize, |texts|)..] == [];
    }
  }

  /** With a provider that embeds texts one by one, the result has one vector per text,
      in order, each computed on the text cut to 8000 characters. */
  lemma EmbedAllElementwise(texts: seq<string>, provider: Provider, f: string -> Vector)
    requires Elementwise(provider, f)
    ensures EmbedAll(texts, provider, true) == Ok(Embedded(f, texts))
  {
    EmbedFromElementwise(texts, provider, f, 0);
    assert texts[0..] == texts;
  }

  // ---------------------------------------------------------------------------
  // The store: embed_content_items
  // ---------------------------------------------------------------------------

  datatype Metadata = Metadata(contentId: Option<int>, kind: string, platformId: int, externalId: string,
                               likes: nat, views: nat, comments: nat, duration: string, timestamp: string)

  datatype Entry = Entry(id: string, document: string, metadata: Metadata, embedding: Option<Vector>)

  /** `f"content_{item.id}"` */
  function ContentKey(id: int): string
  {
    "content_" + IntToString(id)
  }

  /** Distinct content ids have distinct store keys. */
  lemma ContentKeyInjective(a: int, b: int)
    requires ContentKey(a) == ContentKey(b)
    ensures a == b
  {
    assert IntToString(a) == ContentKey(a)[8..];
    assert IntToString(b) == ContentKey(b)[8..];
    IntToStringInjective(a, b);
  }

  function MetadataOf(item: ContentItem): Metadata
  {
    Metadata(Some(item.id), item.kind, item.platformId, item.externalId, item.likes, item.views,
             item.comments, item.duration, if item.timestamp.Some? then IsoFormat(item.timestamp.value) else "")
  }

  function Keys(entries: seq<Entry>): set<string>
  {
    set e | e in entries :: e.id
  }

  /** The entry prepared for an item, before its vector arrives. */
  function EntryOf(item: ContentItem, platforms: map<int, Platform>): Entry
  {
    Entry(ContentKey(item.id), DocumentText(item, PlatformOf(item, platforms)), MetadataOf(item), None)
  }

  /** Whether the embed loop prepares an entry for the item: not marked, not in the store
      and with a document that is not blank. */
  predicate Prepared(existing: set<string>, item: ContentItem, platforms: map<int, Platform>)
  {
    !item.isEmbedded && ContentKey(item.id) !in existing && Strip(EntryOf(item, platforms).document) != ""
  }

  /** The entries the embed loop prepares, in the order of the items. */
  function Pending(existing: set<string>, items: seq<ContentItem>, platforms: map<int, Platform>): (r: seq<Entry>)
    ensures |r| <= |items|
  {
    if items == [] then []
    else
      var last := items[|items| - 1];
      Pending(existing, items[..|items| - 1], platforms)
      + (if Prepared(existing, last, platforms) then [EntryOf(last, platforms)] else [])
  }

  lemma PendingSnoc(existing: set<string>, items: seq<ContentItem>, item: ContentItem, platforms: map<int, Platform>)
    ensures Pending(existing, items + [item], platforms) ==
      Pending(existing, items, platforms) + (if Prepared(existing, item, platforms) then [EntryOf(item, platforms)] else [])
  {
    assert (items + [item])[..|items|] == items;
  }

  /** Every prepared entry is new to the store, has no vector yet, and is the entry of an
      unmarked item. */
  lemma {:induction false} PendingSound(existing: set<string>, items: seq<ContentItem>, platforms: map<int, Platform>)
    ensures forall e :: e in Pending(existing, items, platforms) ==>
              e.id !in existing && e.embedding.None?
              && exists x :: x in items && !x.isEmbedded && e == EntryOf(x, platforms)
  {
    if items != [] {
      var init := items[..|items| - 1];
      PendingSound(existing, init, platforms);
      assert forall x :: x in init ==> x in items;
    }
  }

  /** Every unmarked item not yet in the store gets its entry: a document is never blank. */
  lemma {:induction false} PendingComplete(existing: set<string>, items: seq<ContentItem>, platforms: map<int, Platform>)
    ensures forall x :: x in items && !x.isEmbedded && ContentKey(x.id) !in existing ==>
              EntryOf(x, platforms) in Pending(existing, items, platforms)
  {
    if items != [] {
      var init := items[..|items| - 1];
      var last := items[|items| - 1];
      PendingComplete(existing, init, platforms);
      assert forall x :: x in items ==> x in init || x == last;
      DocumentNotBlank(last, PlatformOf(last, platforms));
    }
  }

  function Documents(entries: seq<Entry>): (r: seq<string>)
    ensures |r| == |entries| && forall i :: 0 <= i < |r| ==> r[i] == entries[i].document
  {
    seq(|entries|, i requires 0 <= i < |entries| => entries[i].document)
  }

  /** `zip(new_entries, embeddings)`: each entry with its vector, up to the shorter list. */
  function Attach(entries: seq<Entry>, vectors: seq<Vector>): (r: seq<Entry>)
    ensures |r| == if |entries| <= |vectors| then |entries| else |vectors|
    ensures forall i :: 0 <= i < |r| ==> r[i] == entries[i].(embedding := Some(vectors[i]))
  {
    if entries == [] || vectors == [] then []
    else [entries[0].(embedding := Some(vectors[0]))] + Attach(entries[1..], vectors[1..])
  }

  function MarkEmbedded(items: seq<ContentItem>): (r: seq<ContentItem>)
    ensures |r| == |items| && forall i :: 0 <= i < |r| ==> r[i] == items[i].(isEmbedded := true)
  {
    seq(|items|, i requires 0 <= i < |items| => items[i].(isEmbedded := true))
  }

  /** The outcome of one `embed_content_items` call: the store's entries, the items after
      the call, and the error raised, if any. */
  datatype EmbedOutcome = EmbedOutcome(entries: seq<Entry>, items: seq<ContentItem>, error: Option<string>)

  function EmbedStep(entries: seq<Entry>, items: seq<ContentItem>, platforms: map<int, Platform>,
                     provider: Provider, hasClient: bool): EmbedOutcome
  {
    var pending := Pending(Keys(entries), items, platforms);
    if items == [] || pending == [] then EmbedOutcome(entries, items, None)
    else match EmbedAll(Documents(pending), provider, hasClient)
      case Err(e) => EmbedOutcome(entries, items, Some(e))
      case Ok(vectors) => EmbedOutcome(entries + Attach(pending, vectors), MarkEmbedded(items), None)
  }

  /** The store only grows: the old entries stay as they were, first, and the new ones
      follow in the order of `items`, each with its own vector. */
  lemma EmbedAppendOnly(entries: seq<Entry>, items: seq<ContentItem>, platforms: map<int, Platform>,
                        provider: Provider, hasClient: bool)
    ensures var out := EmbedStep(entries, items, platforms, provider, hasClient);
      && entries <= out.entries
      && (out.error.Some? ==> out.entries == entries && out.items == items)
      && forall i :: |entries| <= i < |out.entries| ==>
           out.entries[i].embedding.Some?
           && out.entries[i] == Pending(Keys(entries), items, platforms)[i - |entries|]
                                  .(embedding := out.entries[i].embedding)
  {
  }

  /** After a call that embedded something, every item passed in is marked, including
      those passed over; when nothing is pending, nothing is saved and nothing marked. */
  lemma EmbedMarks(entries: seq<Entry>, items: seq<ContentItem>, platforms: map<int, Platform>,
                   provider: Provider, hasClient: bool)
    ensures var out := EmbedStep(entries, items, platforms, provider, hasClient);
      && (Pending(Keys(entries), items, platforms) == [] ==> out == EmbedOutcome(entries, items, None))
      && (out.error.None? && out.entries != entries ==> out.items == MarkEmbedded(items))
  {
  }

  /** Embedding the outcome again adds nothing, whatever the provider: either every item
      is marked, or nothing was pending against the same store. */
  lemma EmbedIdempotent(entries: seq<Entry>, items: seq<ContentItem>, platforms: map<int, Platform>,
                        provider: Provider, hasClient: bool, provider2: Provider, hasClient2: bool)
    ensures var out := EmbedStep(entries, items, platforms, provider, hasClient);
      out.error.None? ==>
        EmbedStep(out.entries, out.items, platforms, provider2, hasClient2).entries == out.entries
  {
    var out := EmbedStep(entries, items, platforms, provider, hasClient);
    var pending := Pending(Keys(entries), items, platforms);
    if items != [] && pending != [] && EmbedAll(Documents(pending), provider, hasClient).Ok? {
      assert out.items == MarkEmbedded(items);
      NothingPendingWhenMarked(Keys(out.entries), out.items, platforms);
    }
  }

  /** When the provider answers with a vector for every document, every unmarked item
      ends up in the store under its key. */
  lemma EmbedCovers(entries: seq<Entry>, items: seq<ContentItem>, platforms: map<int, Platform>,
                    provider: Provider, hasClient: bool, vectors: seq<Vector>)
    requires EmbedAll(Documents(Pending(Keys(entries), items, platforms)), provider, hasClient) == Ok(vectors)
    requires |vectors| >= |Pending(Keys(entries), items, platforms)|
    ensures forall x :: x in items && !x.isEmbedded ==>
              ContentKey(x.id) in Keys(EmbedStep(entries, items, platforms, provider, hasClient).entries)
  {
    var out := EmbedStep(entries, items, platforms, provider, hasClient);
    var pending := Pending(Keys(entries), items, platforms);
    PendingComplete(Keys(entries), items, platforms);
    forall x | x in items && !x.isEmbedded ensures ContentKey(x.id) in Keys(out.entries) {
      if ContentKey(x.id) !in Keys(entries) {
        var i :| 0 <= i < |pending| && pending[i] == EntryOf(x, platforms);
        var a := Attach(pending, vectors);
        assert a[i].id == ContentKey(x.id);
        assert out.entries[|entries| + i] == a[i];
        assert out.entries[|entries| + i] in out.entries;
      } else {
        assert entries <= out.entries;
        var e :| e in entries && e.id == ContentKey(x.id);
        assert e in out.entries;
      }
    }
  }

  lemma {:induction false} NothingPendingWhenMarked(existing: set<string>, items: seq<ContentItem>, platforms: map<int, Platform>)
    requires forall x :: x in items ==> x.isEmbedded
    ensures Pending(existing, items, platforms) == []
  {
    if items != [] {
      NothingPendingWhenMarked(existing, items[..|items| - 1], platforms);
    }
  }

  /** One turn of the loop of `embed_content_items`: the entry prepared for an item, or
      nothing when the item is marked, already stored or has a blank document. */
  method PrepareEntry(existing: set<string>, item: ContentItem, platforms: map<int, Platform>)
    returns (entry: Option<Entry>)
    ensures entry.Some? <==> Prepared(existing, item, platforms)
    ensures entry.Some? ==> entry.value == EntryOf(item, platforms)
  {
    if item.isEmbedded {
      return None;
    }
    var entryId := ContentKey(item.id);
    if entryId in existing {
      return None;
    }
    var text := DocumentText(item, PlatformOf(item, platforms));
    if Strip(text) == "" {
      return None;
    }
    return Some(Entry(entryId, text, MetadataOf(item), None));
  }

  /** The loop of `embed_content_items` that prepares the new entries. */
  method PendingEntries(existing: set<string>, items: seq<ContentItem>, platforms: map<int, Platform>)
    returns (pending: seq<Entry>)
    ensures pending == Pending(existing, items, platforms)
  {
    pending := [];
    var n := 0;
    while n < |items|
      invariant 0 <= n <= |items|
      invariant pending == Pending(existing, items[..n], platforms)
    {
      var item := items[n];
      assert items[..n + 1] == items[..n] + [item];
      PendingSnoc(existing, items[..n], item, platforms);
      var entry := PrepareEntry(existing, item, platforms);
      if entry.Some? {
        pending := pending + [entry.value];
      }
      n := n + 1;
    }
    assert items[..n] == items;
  }

  /** `for entry, embedding in zip(new_entries, embeddings)`. */
  method AttachAll(pending: seq<Entry>, vectors: seq<Vector>) returns (attached: seq<Entry>)
    ensures attached == Attach(pending, vectors)
  {
    attached := [];
    var k := 0;
    var size := if |pending| <= |vectors| then |pending| else |vectors|;
    while k < size
      invariant 0 <= k <= size
      invariant |attached| == k
      invariant forall i :: 0 <= i < k ==> attached[i] == pending[i].(embedding := Some(vectors[i]))
    {
      attached := attached + [pending[k].(embedding := Some(vectors[k]))];
      k := k + 1;
    }
  }

  class VectorStore {
    var entries: seq<Entry>

    /** A creator without a store file: `{"items": []}`. */
    constructor ()
      ensures entries == []
    {
      entries := [];
    }

    /** `embed_content_items`: appends the new entries with their vectors and returns the
        items, marked when something was embedded; a provider error leaves everything as
        it was. */
    method EmbedContentItems(items: seq<ContentItem>, platforms: map<int, Platform>,
                             provider: Provider, hasClient: bool)
      returns (updated: seq<ContentItem>, error: Option<string>)
      modifies this
      ensures EmbedOutcome(entries, updated, error) == EmbedStep(old(entries), items, platforms, provider, hasClient)
    {
      updated, error := items, None;
      if items == [] {
        return;
      }
      var pending := PendingEntries(Keys(entries), items, platforms);
      if pending == [] {
        return;
      }
      var vectors := EmbedTexts(Documents(pending), provider, hasClient);
      if vectors.Err? {
        return items, Some(vectors.error);
      }
      var attached := AttachAll(pending, vectors.value);
      entries := entries + attached;
      updated := MarkEmbedded(items);
    }

    /** `search`: the `n` entries most similar to the query, best first. */
    method Search(query: string, n: nat, provider: Provider, hasClient: bool,
                  sim: (Vector, Vector) -> real) returns (r: Result<seq<SearchResult>, string>)
      ensures r == SearchSpec(entries, query, n, provider, hasClient, sim)
    {
      r := SearchEntries(entries, query, n, provider, hasClient, sim);
    }
  }

  /** The embedding client as the chat service uses it: the provider's answers, whether
      an API key is configured, and the similarity of two vectors. */
  datatype Embedder = Embedder(provider: Provider, hasClient: bool, sim: (Vector, Vector) -> real)

  /** The body of `search` over the entries of a creator's store file. */
  method SearchEntries(entries: seq<Entry>, query: string, n: nat, provider: Provider, hasClient: bool,
                       sim: (Vector, Vector) -> real) returns (r: Result<seq<SearchResult>, string>)
    ensures r == SearchSpec(entries, query, n, provider, hasClient, sim)
  {
    if entries == [] {
      return Ok([]);
    }
    var q := EmbedTexts([query], provider, hasClient);
    if q.Err? {
      return Err(q.error);
    }
    if q.value == [] {
      return Err(NoQueryVector);
    }
    var scored := Score(entries, q.value[0], sim);
    var top := Take(SortDesc(scored, MatchSim), n);
    var results := Format(top);
    return Ok(results);
  }

  /** The loop over the collection: each entry's similarity to the query vector. */
  method Score(entries: seq<Entry>, q: Vector, sim: (Vector, Vector) -> real) returns (scored: seq<Match>)
    ensures scored == Matches(entries, q, sim)
  {
    scored := [];
    var k := 0;
    while k < |entries|
      invariant 0 <= k <= |entries|
      invariant scored == Matches(entries[..k], q, sim)
    {
      assert entries[..k + 1] == entries[..k] + [entries[k]];
      assert entries[..k + 1][..k] == entries[..k];
      if entries[k].embedding.Some? {
        scored := scored + [Match(sim(q, entries[k].embedding.value), entries[k])];
      }
      k := k + 1;
    }
    assert entries[..k] == entries;
  }

  /** The loop over the best matches: what each reports. */
  method Format(top: seq<Match>) returns (results: seq<SearchResult>)
    ensures results == ToResults(top)
  {
    results := [];
    var j := 0;
    while j < |top|
      invariant 0 <= j <= |top|
      invariant results == ToResults(top[..j])
    {
      assert top[..j + 1] == top[..j] + [top[j]];
      ToResultsAppend(top[..j], top[j]);
      results := results + [ToResult(top[j])];
      j := j + 1;
    }
    assert top[..j] == top;
  }

  // ---------------------------------------------------------------------------
  // search
  // ---------------------------------------------------------------------------

  datatype Match = Match(sim: real, entry: Entry)

  datatype SearchResult = SearchResult(id: string, document: string, metadata: Metadata, distance: real)

  function MatchSim(m: Match): real
  {
    m.sim
  }

  /** The entries that have a vector, with their similarity to the query. */
  function Matches(entries: seq<Entry>, q: Vector, sim: (Vector, Vector) -> real): (r: seq<Match>)
    ensures forall m :: m in r ==> m.entry in entries && m.entry.embedding.Some? && m.sim == sim(q, m.entry.embedding.value)
    ensures forall e :: e in entries && e.embedding.Some? ==> Match(sim(q, e.embedding.value), e) in r
  {
    if entries == [] then []
    else
      var last := entries[|entries| - 1];
      assert forall e :: e in entries ==> e in entries[..|entries| - 1] || e == last;
      Matches(entries[..|entries| - 1], q, sim)
      + (if last.embedding.Some? then [Match(sim(q, last.embedding.value), last)] else [])
  }

  function ToResult(m: Match): SearchResult
  {
    SearchResult(m.entry.id, m.entry.document, m.entry.metadata, 1.0 - m.sim)
  }

  function ToResults(ms: seq<Match>): (r: seq<SearchResult>)
    ensures |r| == |ms| && forall i :: 0 <= i < |r| ==> r[i] == ToResult(ms[i])
  {
    seq(|ms|, i requires 0 <= i < |ms| => ToResult(ms[i]))
  }

  lemma ToResultsAppend(ms: seq<Match>, m: Match)
    ensures ToResults(ms + [m]) == ToResults(ms) + [ToResult(m)]
  {
  }

  function SearchSpec(entries: seq<Entry>, query: string, n: nat, provider: Provider, hasClient: bool,
                      sim: (Vector, Vector) -> real): Result<seq<SearchResult>, string>
  {
    if entries == [] then Ok([])
    else match EmbedAll([query], provider, hasClient)
      case Err(e) => Err(e)
      case Ok(q) =>
        if q == [] then Err(NoQueryVector)
        else Ok(ToResults(Take(SortDesc(Matches(entries, q[0], sim), MatchSim), n)))
  }

  /** An empty store answers with no results, whatever the provider does. */
  lemma SearchEmptyStore(query: string, n: nat, provider: Provider, hasClient: bool, sim: (Vector, Vector) -> real)
    ensures SearchSpec([], query, n, provider, hasClient, sim) == Ok([])
  {
  }

  /** `res` is an entry with a vector, at distance `1 - sim` from the query. */
  predicate FromEntry(entries: seq<Entry>, q: Vector, sim: (Vector, Vector) -> real, res: SearchResult)
  {
    exists e :: e in entries && e.embedding.Some? && e.id == res.id && res.distance == 1.0 - sim(q, e.embedding.value)
  }

  predicate Absent(r: seq<SearchResult>, e: Entry)
  {
    forall j :: 0 <= j < |r| ==> r[j].id != e.id
  }

  /** The best `n` matches are as many as `n`, or all matches when there are fewer; each
      is an entry at distance `1 - sim`. */
  lemma RankedSound(entries: seq<Entry>, q: Vector, sim: (Vector, Vector) -> real, n: nat)
    ensures var r := ToResults(Take(SortDesc(Matches(entries, q, sim), MatchSim), n));
      var found := |Matches(entries, q, sim)|;
      && |r| == (if found < n then found else n)
      && forall i :: 0 <= i < |r| ==> FromEntry(entries, q, sim, r[i])
  {
    var ms := Matches(entries, q, sim);
    var top := Take(SortDesc(ms, MatchSim), n);
    var r := ToResults(top);
    SortDescCorrect(ms, MatchSim);
    forall i | 0 <= i < |r| ensures FromEntry(entries, q, sim, r[i]) {
      assert top[i] in multiset(ms);
      assert top[i] in ms;
    }
  }

  /** The best `n` matches come in non-decreasing distance. */
  lemma RankedOrdered(entries: seq<Entry>, q: Vector, sim: (Vector, Vector) -> real, n: nat)
    ensures var r := ToResults(Take(SortDesc(Matches(entries, q, sim), MatchSim), n));
      forall i, j :: 0 <= i < j < |r| ==> r[i].distance <= r[j].distance
  {
    var sorted := SortDesc(Matches(entries, q, sim), MatchSim);
    var top := Take(sorted, n);
    var r := ToResults(top);
    SortDescSorted(Matches(entries, q, sim), MatchSim);
    TakeSorted(sorted, |top|, MatchSim);
    forall i, j | 0 <= i < j < |r| ensures r[i].distance <= r[j].distance {
      assert MatchSim(top[i]) >= MatchSim(top[j]);
    }
  }

  /** An entry with a vector that the best `n` matches leave out is no more similar than
      any of them. */
  lemma RankedLeftOut(entries: seq<Entry>, q: Vector, sim: (Vector, Vector) -> real, n: nat)
    ensures var r := ToResults(Take(SortDesc(Matches(entries, q, sim), MatchSim), n));
      forall e, i :: e in entries && e.embedding.Some? && 0 <= i < |r| && Absent(r, e) ==>
        1.0 - r[i].distance >= sim(q, e.embedding.value)
  {
    var ms := Matches(entries, q, sim);
    var sorted := SortDesc(ms, MatchSim);
    var top := Take(sorted, n);
    var r := ToResults(top);
    SortDescSorted(ms, MatchSim);
    SortDescElements(ms, MatchSim);
    assert top == sorted[..|top|];
    TopKeysDominate(sorted, |top|, MatchSim);
    forall e, i | e in entries && e.embedding.Some? && 0 <= i < |r| && Absent(r, e)
      ensures 1.0 - r[i].distance >= sim(q, e.embedding.value)
    {
      var m := Match(sim(q, e.embedding.value), e);
      assert m in multiset(ms);
      assert m in multiset(sorted);
      var p :| 0 <= p < |sorted| && sorted[p] == m;
      assert forall j :: 0 <= j < |top| ==> r[j].id == sorted[j].entry.id;
      assert p >= |top|;
      assert MatchSim(sorted[i]) >= MatchSim(sorted[p]);
    }
  }

  /** A search of a non-empty store whose query got a vector `q`: `n` results, or one per
      entry with a vector when there are fewer, in non-decreasing distance, each an entry with a vector at distance `1 - sim`; an
      entry with a vector that is left out is no more similar than any result. */
  lemma SearchFacts(entries: seq<Entry>, query: string, n: nat, provider: Provider, hasClient: bool,
                    sim: (Vector, Vector) -> real, q: Vector)
    requires entries != [] && EmbedAll([query], provider, hasClient).Ok?
    requires |EmbedAll([query], provider, hasClient).value| > 0 && EmbedAll([query], provider, hasClient).value[0] == q
    ensures SearchSpec(entries, query, n, provider, hasClient, sim).Ok?
    ensures var r := SearchSpec(entries, query, n, provider, hasClient, sim).value;
      var found := |Matches(entries, q, sim)|;
      && |r| == (if found < n then found else n)
      && (forall i, j :: 0 <= i < j < |r| ==> r[i].distance <= r[j].distance)
      && (forall i :: 0 <= i < |r| ==> FromEntry(entries, q, sim, r[i]))
      && (forall e, i :: e in entries && e.embedding.Some? && 0 <= i < |r| && Absent(r, e) ==>
            1.0 - r[i].distance >= sim(q, e.embedding.value))
  {
    RankedSound(entries, q, sim, n);
    RankedOrdered(entries, q, sim, n);
    RankedLeftOut(entries, q, sim, n);
  }
}
