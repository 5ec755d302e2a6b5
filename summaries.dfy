/** The video summaries of the knowledge pipeline (`_generate_video_summaries` and
    `generate_summaries_for_new_items` in backend/services/knowledge.py): the items
    without a summary, cut into batches of ten; each batch described to the language
    model, whose answer is unfenced and parsed into summaries by item id, with fallbacks
    for an item the answer leaves out and for a call or a parse that raises. The model
    and `json.loads` are parameters. */
module Summaries {
  import opened Common
  import opened Models
  import opened Batching

  const SummaryBatchSize: nat := 10
  const PromptCaptionChars: nat := 500
  const PromptTranscriptChars: nat := 1500
  const FallbackChars: nat := 200
  const NoSummary := "No summary"
  const Fence := "```"

  /** The two loops: the pipeline's, which reports progress and puts the engagement in
      the prompt, and the post-scrape hook's. */
  datatype Variant = Pipeline | PostScrape

  /** What the model is asked about a batch: the descriptions of its videos. The answer
      is the reply's text, or the text of the exception the call raised. */
  type Model = seq<string> -> Result<string, string>

  /** `json.loads` followed by `{s["id"]: s["summary"] for s in summaries}`: `None` where
      either raises. */
  type Parser = string -> Option<map<int, string>>

  // ---------------------------------------------------------------------------
  // The batch prompt
  // ---------------------------------------------------------------------------

  /** `f"VIDEO {i+1} (ID: {item.id}):\n"` */
  function VideoHeader(i: nat, id: int): string
  {
    "VIDEO " + NatToString(i + 1) + " (ID: " + IntToString(id) + "):\n"
  }

  function VideoBody(variant: Variant, item: ContentItem): string
  {
    (if Truthy(item.title) then "Title: " + item.title.value + "\n" else "")
    + (if Truthy(item.caption) then "Caption: " + Take(item.caption.value, PromptCaptionChars) + "\n" else "")
    + (if Truthy(item.transcript) && item.transcript != item.caption
       then "Transcript: " + Take(item.transcript.value, PromptTranscriptChars) + "\n" else "")
    + (if variant == Pipeline then "Stats: " + NatToString(item.views) + " views, " + NatToString(item.likes) + " likes"
       else "")
  }

  /** The description of the video at position `i` of its batch. */
  function VideoText(variant: Variant, i: nat, item: ContentItem): string
  {
    VideoHeader(i, item.id) + VideoBody(variant, item)
  }

  function VideoTexts(variant: Variant, batch: seq<ContentItem>): (r: seq<string>)
    ensures |r| == |batch|
  {
    seq(|batch|, i requires 0 <= i < |batch| => VideoText(variant, i, batch[i]))
  }

  /** The `i`-th description of a batch opens with the number `i + 1` and the item's id,
      and shows the title when there is one. */
  lemma VideoTextsFacts(variant: Variant, batch: seq<ContentItem>)
    ensures forall i :: 0 <= i < |batch| ==>
              StartsWith(VideoTexts(variant, batch)[i], VideoHeader(i, batch[i].id))
              && (Truthy(batch[i].title) ==> Contains(VideoTexts(variant, batch)[i], "Title: " + batch[i].title.value + "\n"))
  {
    forall i | 0 <= i < |batch|
      ensures StartsWith(VideoTexts(variant, batch)[i], VideoHeader(i, batch[i].id))
      ensures Truthy(batch[i].title) ==> Contains(VideoTexts(variant, batch)[i], "Title: " + batch[i].title.value + "\n")
    {
      var h, b := VideoHeader(i, batch[i].id), VideoBody(variant, batch[i]);
      assert VideoTexts(variant, batch)[i] == h + b;
      assert (h + b)[..|h|] == h;
      if Truthy(batch[i].title) {
        var t := "Title: " + batch[i].title.value + "\n";
        assert b == t + b[|t|..];
        assert h + b == h + t + b[|t|..];
        ContainsMiddle(h, t, b[|t|..]);
      }
    }
  }

  // ---------------------------------------------------------------------------
  // The answer
  // ---------------------------------------------------------------------------

  /** The position of the first `c` in `s`. */
  function IndexOf(s: string, c: char): (r: Option<nat>)
    ensures r.Some? ==> r.value < |s| && s[r.value] == c && c !in s[..r.value]
    ensures r.None? ==> c !in s
  {
    if s == [] then None
    else if s[0] == c then Some(0)
    else
      match IndexOf(s[1..], c)
      case None => None
      case Some(k) =>
        assert s[..k + 1] == [s[0]] + s[1..][..k];
        Some(k + 1)
  }

  /** The start of the last occurrence of `sub` in `s` among the starts below `i`. */
  function LastFrom(s: string, sub: string, i: nat): (r: Option<nat>)
    ensures r.Some? ==> r.value < i && OccursAt(s, sub, r.value)
    ensures r.Some? ==> forall k :: r.value < k < i ==> !OccursAt(s, sub, k)
    ensures r.None? ==> forall k :: 0 <= k < i ==> !OccursAt(s, sub, k)
  {
    if i == 0 then None
    else if OccursAt(s, sub, i - 1) then Some(i - 1)
    else LastFrom(s, sub, i - 1)
  }

  /** `s.rsplit(sub, 1)[0]`: what precedes the last occurrence of `sub`, or all of `s`. */
  function BeforeLast(s: string, sub: string): string
  {
    match LastFrom(s, sub, |s| + 1)
    case Some(p) => s[..p]
    case None => s
  }

  /** `text.split("\n", 1)[1].rsplit("```", 1)[0].strip()`; `None` where the text has no
      line break and the index raises. */
  function Unfence(text: string): Option<string>
  {
    match IndexOf(text, '\n')
    case None => None
    case Some(k) => Some(Strip(BeforeLast(text[k + 1..], Fence)))
  }

  /** `response.content[0].text.strip()`, unfenced when it starts with three backquotes. */
  function ReplyBody(answer: string): Option<string>
  {
    var text := Strip(answer);
    if StartsWith(text, Fence) then Unfence(text) else Some(text)
  }

  /** A string that neither starts nor ends with whitespace is its own `strip()`. */
  lemma StripUnchanged(s: string)
    requires |s| > 0 && !IsSpace(s[0]) && !IsSpace(s[|s| - 1])
    ensures Strip(s) == s
  {
    assert StripStart(s) == s;
  }

  /** The text of a fenced block `` ```tag\n…``` `` is its body, stripped, whatever the
      body holds. */
  lemma UnfenceBlock(tag: string, body: string)
    requires '\n' !in tag
    ensures ReplyBody(Fence + tag + "\n" + body + Fence) == Some(Strip(body))
  {
    var s := Fence + tag + "\n" + body + Fence;
    assert s[0] == '`' && s[|s| - 1] == '`';
    StripUnchanged(s);
    assert s[..3] == Fence;
    FirstNewline(Fence + tag, body + Fence);
    assert s == (Fence + tag) + "\n" + (body + Fence);
    var rest := s[|Fence + tag| + 1..];
    assert rest == body + Fence;
    LastFence(body);
  }

  /** The first line break of `head + "\n" + tail` is the one after `head`, when `head`
      has none. */
  lemma FirstNewline(head: string, tail: string)
    requires '\n' !in head
    ensures IndexOf(head + "\n" + tail, '\n') == Some(|head|)
  {
    var s := head + "\n" + tail;
    assert s[|head|] == '\n' && s[..|head|] == head;
  }

  /** The last fence of `body + "```"` is the closing one. */
  lemma LastFence(body: string)
    ensures BeforeLast(body + Fence, Fence) == body
  {
    var rest := body + Fence;
    assert rest[|body|..|body| + 3] == Fence;
    assert OccursAt(rest, Fence, |body|);
    var p := LastFrom(rest, Fence, |rest| + 1).value;
    assert p == |body|;
    assert rest[..p] == body;
  }

  /** The summaries a batch's answer gives by item id, or `None` where the call, the
      unfencing or the parse raised. */
  function BatchOutcome(answer: Result<string, string>, parse: Parser): Option<map<int, string>>
  {
    match answer
    case Err(_) => None
    case Ok(a) =>
      match ReplyBody(a)
      case None => None
      case Some(body) => parse(body)
  }

  /** The summary an item of a batch gets. With an answer: its entry, else (in the
      pipeline) the caption's first 200 characters or "No summary", (after a scrape) the
      caption's first 200 characters or nothing. Without one: the first 200 characters of
      the caption, else of the title. */
  function NewSummary(variant: Variant, item: ContentItem, outcome: Option<map<int, string>>): (r: string)
    ensures outcome.Some? && item.id in outcome.value ==> r == outcome.value[item.id]
    ensures outcome.Some? && item.id !in outcome.value ==>
              if variant == Pipeline && !Truthy(item.caption) then r == NoSummary
              else r == Take(Text(item.caption), FallbackChars)
    ensures outcome.None? ==> r == Take(OrElse(item.caption, Text(item.title)), FallbackChars)
  {
    match outcome
    case Some(m) =>
      if item.id in m then m[item.id]
      else if variant == Pipeline then (if Truthy(item.caption) then Take(item.caption.value, FallbackChars) else NoSummary)
      else Take(Text(item.caption), FallbackChars)
    case None => Take(OrElse(item.caption, OrElse(item.title, "")), FallbackChars)
  }

  // ---------------------------------------------------------------------------
  // The items without a summary, and their batches
  // ---------------------------------------------------------------------------

  /** The positions of the items without a summary, in order
      (`[i for i in items if not i.summary]`). */
  function Pending(items: seq<ContentItem>): (r: seq<nat>)
    ensures forall j :: 0 <= j < |r| ==> r[j] < |items|
  {
    if items == [] then []
    else Pending(items[..|items| - 1]) + (if !Truthy(items[|items| - 1].summary) then [|items| - 1] else [])
  }

  /** The positions are those of the items without a summary, each once, in order. */
  lemma {:induction false} PendingFacts(items: seq<ContentItem>)
    ensures forall j :: 0 <= j < |Pending(items)| ==> !Truthy(items[Pending(items)[j]].summary)
    ensures Increasing(Pending(items), |items|)
    ensures forall p :: 0 <= p < |items| && !Truthy(items[p].summary) ==> p in Pending(items)
  {
    if items != [] {
      var init := items[..|items| - 1];
      PendingFacts(init);
      assert forall p :: 0 <= p < |init| ==> init[p] == items[p];
    }
  }

  /** The items without a summary, in order. */
  function Unsummarized(items: seq<ContentItem>): (r: seq<ContentItem>)
    ensures |r| == |Pending(items)|
  {
    seq(|Pending(items)|, j requires 0 <= j < |Pending(items)| => items[Pending(items)[j]])
  }

  /** Item `j` of the items without a summary falls in batch `j / 10`. */
  lemma BatchOfIndex(j: nat, n: nat)
    requires j < n
    ensures j / SummaryBatchSize < NumBatches(n, SummaryBatchSize)
    ensures j / SummaryBatchSize * SummaryBatchSize <= j < BatchEnd(n, SummaryBatchSize, j / SummaryBatchSize)
  {
    var q := j / SummaryBatchSize;
    assert q * SummaryBatchSize <= j < q * SummaryBatchSize + SummaryBatchSize;
    assert n + SummaryBatchSize - 1 >= q * SummaryBatchSize + SummaryBatchSize;
    assert (n + SummaryBatchSize - 1) / SummaryBatchSize >= q + 1;
  }

  /** The answer to batch `k` of the items as they were. */
  function Outcome(variant: Variant, items: seq<ContentItem>, ask: Model, parse: Parser, k: nat): Option<map<int, string>>
  {
    var u := Unsummarized(items);
    if k < NumBatches(|u|, SummaryBatchSize)
    then BatchOutcome(ask(VideoTexts(variant, Batch(u, SummaryBatchSize, k))), parse)
    else None
  }

  /** Positions in `0..n`, strictly increasing. */
  predicate Increasing(positions: seq<nat>, n: nat)
  {
    && (forall j :: 0 <= j < |positions| ==> positions[j] < n)
    && (forall j, k :: 0 <= j < k < |positions| ==> positions[j] < positions[k])
  }

  /** `base` with the element at `positions[j]` replaced by `f(j, it)`, for every `j`
      below `done`. */
  function Overwrite<T>(base: seq<T>, positions: seq<nat>, f: (nat, T) -> T, done: nat): (r: seq<T>)
    requires done <= |positions| && Increasing(positions, |base|)
    ensures |r| == |base|
  {
    if done == 0 then base
    else Overwrite(base, positions, f, done - 1)[positions[done - 1] := f(done - 1, base[positions[done - 1]])]
  }

  lemma {:induction false} OverwriteAt<T>(base: seq<T>, positions: seq<nat>, f: (nat, T) -> T, done: nat)
    requires done <= |positions| && Increasing(positions, |base|)
    ensures forall p :: 0 <= p < |base| && p !in positions ==> Overwrite(base, positions, f, done)[p] == base[p]
    ensures forall j :: 0 <= j < done ==> Overwrite(base, positions, f, done)[positions[j]] == f(j, base[positions[j]])
    ensures forall j :: done <= j < |positions| ==> Overwrite(base, positions, f, done)[positions[j]] == base[positions[j]]
  {
    if done > 0 {
      OverwriteAt(base, positions, f, done - 1);
    }
  }

  /** The answer to each batch, by batch number. */
  type Outcomes = nat -> Option<map<int, string>>

  function Answers(variant: Variant, items: seq<ContentItem>, ask: Model, parse: Parser): Outcomes
  {
    (k: nat) => Outcome(variant, items, ask, parse, k)
  }

  /** How item `j` of the items without a summary is summarised. */
  function Resummarize(variant: Variant, outcomes: Outcomes): (nat, ContentItem) -> ContentItem
  {
    (j: nat, item: ContentItem) => item.(summary := Some(NewSummary(variant, item, outcomes(j / SummaryBatchSize))))
  }

  /** The items once the first `done` items without a summary have been given one. */
  function SummarizedUpTo(variant: Variant, items: seq<ContentItem>, outcomes: Outcomes, done: nat): (r: seq<ContentItem>)
    requires done <= |Pending(items)|
    ensures |r| == |items|
  {
    PendingFacts(items);
    Overwrite(items, Pending(items), Resummarize(variant, outcomes), done)
  }

  lemma SummarizedUpToAt(variant: Variant, items: seq<ContentItem>, outcomes: Outcomes, done: nat)
    requires done <= |Pending(items)|
    ensures forall j :: 0 <= j < done ==>
              SummarizedUpTo(variant, items, outcomes, done)[Pending(items)[j]]
              == Resummarize(variant, outcomes)(j, items[Pending(items)[j]])
    ensures forall j :: done <= j < |Pending(items)| ==>
              SummarizedUpTo(variant, items, outcomes, done)[Pending(items)[j]] == items[Pending(items)[j]]
  {
    PendingFacts(items);
    OverwriteAt(items, Pending(items), Resummarize(variant, outcomes), done);
  }

  /** The items after every batch. */
  function Summarized(variant: Variant, items: seq<ContentItem>, ask: Model, parse: Parser): seq<ContentItem>
  {
    SummarizedUpTo(variant, items, Answers(variant, items, ask, parse), |Pending(items)|)
  }

  /** Item `j` of the items without a summary is item `j % 10` of batch `j / 10`. */
  lemma UnsummarizedInBatch(items: seq<ContentItem>, j: nat)
    requires j < |Pending(items)|
    ensures j / SummaryBatchSize < NumBatches(|Unsummarized(items)|, SummaryBatchSize)
    ensures Batch(Unsummarized(items), SummaryBatchSize, j / SummaryBatchSize)[j % SummaryBatchSize] == items[Pending(items)[j]]
  {
    BatchOfIndex(j, |Pending(items)|);
    var u := Unsummarized(items);
    var k := j / SummaryBatchSize;
    assert Batch(u, SummaryBatchSize, k) == u[k * SummaryBatchSize..BatchEnd(|u|, SummaryBatchSize, k)];
    assert j == k * SummaryBatchSize + j % SummaryBatchSize;
  }

  /** An item that had a summary keeps it, untouched, and no item changes but in its
      summary. */
  lemma SummarizedKeeps(variant: Variant, items: seq<ContentItem>, ask: Model, parse: Parser)
    ensures |Summarized(variant, items, ask, parse)| == |items|
    ensures forall p :: 0 <= p < |items| && Truthy(items[p].summary) ==> Summarized(variant, items, ask, parse)[p] == items[p]
    ensures forall p :: 0 <= p < |items| ==>
              Summarized(variant, items, ask, parse)[p] == items[p].(summary := Summarized(variant, items, ask, parse)[p].summary)
  {
    var pending := Pending(items);
    var f := Resummarize(variant, Answers(variant, items, ask, parse));
    var r := Summarized(variant, items, ask, parse);
    PendingFacts(items);
    OverwriteAt(items, pending, f, |pending|);
    assert r == Overwrite(items, pending, f, |pending|);
    forall p | 0 <= p < |items| ensures r[p] == items[p].(summary := r[p].summary) {
      if p in pending {
        var j :| 0 <= j < |pending| && pending[j] == p;
        assert r[p] == f(j, items[p]);
      }
    }
  }

  /** Item `j` of the items without a summary gets the summary of batch `j / 10`, whose
      prompt describes it as video `j % 10 + 1`. */
  lemma SummarizedPending(variant: Variant, items: seq<ContentItem>, ask: Model, parse: Parser)
    ensures forall j :: 0 <= j < |Pending(items)| ==>
              var item := items[Pending(items)[j]];
              && Summarized(variant, items, ask, parse)[Pending(items)[j]]
                 == item.(summary := Some(NewSummary(variant, item, Outcome(variant, items, ask, parse, j / SummaryBatchSize))))
              && Batch(Unsummarized(items), SummaryBatchSize, j / SummaryBatchSize)[j % SummaryBatchSize] == item
  {
    var pending := Pending(items);
    SummarizedUpToAt(variant, items, Answers(variant, items, ask, parse), |pending|);
    forall j | 0 <= j < |pending|
      ensures Batch(Unsummarized(items), SummaryBatchSize, j / SummaryBatchSize)[j % SummaryBatchSize] == items[pending[j]]
    {
      UnsummarizedInBatch(items, j);
    }
  }

  // ---------------------------------------------------------------------------
  // Progress events and pauses
  // ---------------------------------------------------------------------------

  /** What the loop does besides writing summaries: a progress event (the pipeline only),
      and the rate-limit sleep. */
  datatype Step = Report(progress: real, note: Note) | Pause

  /** The message of a progress event: how many of the `n` items have been through the
      model, or that none needed to. */
  datatype Note = SummarizedCount(done: nat, n: nat) | AllSummarized

  function NoteText(note: Note): string
  {
    match note
    case SummarizedCount(done, n) => "Summarized " + NatToString(done) + "/" + NatToString(n) + " videos"
    case AllSummarized => "All videos already summarized"
  }

  /** The steps after batch `k` of `n` items: the event with `(k + 1) / total`, and the
      sleep unless it is the last batch. */
  function BatchSteps(variant: Variant, n: nat, k: nat): seq<Step>
    requires n > 0
  {
    NumBatchesBounds(n, SummaryBatchSize);
    var total := NumBatches(n, SummaryBatchSize);
    (if variant == Pipeline then [Report((k + 1) as real / total as real, SummarizedCount(BatchEnd(n, SummaryBatchSize, k), n))] else [])
    + (if k + 1 < total then [Pause] else [])
  }

  function StepsUpTo(variant: Variant, n: nat, k: nat): seq<Step>
    requires n > 0
  {
    if k == 0 then [] else StepsUpTo(variant, n, k - 1) + BatchSteps(variant, n, k - 1)
  }

  /** The steps of the whole loop over `n` items without a summary. */
  function Steps(variant: Variant, n: nat): seq<Step>
  {
    if n == 0 then (if variant == Pipeline then [Report(1.0, AllSummarized)] else [])
    else StepsUpTo(variant, n, NumBatches(n, SummaryBatchSize))
  }

  /** The progress values of the events, in order. */
  function Progresses(steps: seq<Step>): seq<real>
  {
    if steps == [] then []
    else Progresses(steps[..|steps| - 1]) + (if steps[|steps| - 1].Report? then [steps[|steps| - 1].progress] else [])
  }

  function Pauses(steps: seq<Step>): nat
  {
    if steps == [] then 0 else Pauses(steps[..|steps| - 1]) + (if steps[|steps| - 1].Pause? then 1 else 0)
  }

  lemma {:induction false} ProgressesAppend(a: seq<Step>, b: seq<Step>)
    ensures Progresses(a + b) == Progresses(a) + Progresses(b)
    decreases |b|
  {
    if b == [] {
      assert a + b == a;
    } else {
      var b' := b[..|b| - 1];
      assert (a + b)[..|a + b| - 1] == a + b';
      ProgressesAppend(a, b');
    }
  }

  lemma {:induction false} PausesAppend(a: seq<Step>, b: seq<Step>)
    ensures Pauses(a + b) == Pauses(a) + Pauses(b)
    decreases |b|
  {
    if b == [] {
      assert a + b == a;
    } else {
      var b' := b[..|b| - 1];
      assert (a + b)[..|a + b| - 1] == a + b';
      PausesAppend(a, b');
    }
  }

  /** A batch pauses once, unless it is the last. */
  lemma BatchPauses(variant: Variant, n: nat, k: nat)
    requires n > 0
    ensures Pauses(BatchSteps(variant, n, k)) == if k + 1 < NumBatches(n, SummaryBatchSize) then 1 else 0
  {
    var steps := BatchSteps(variant, n, k);
    if variant == Pipeline {
      var r := steps[0];
      assert [r][..0] == [];
      if k + 1 < NumBatches(n, SummaryBatchSize) {
        assert steps == [r] + [Pause];
        assert [Pause][..0] == [];
        PausesAppend([r], [Pause]);
      } else {
        assert steps == [r];
      }
    } else if k + 1 < NumBatches(n, SummaryBatchSize) {
      assert steps == [Pause];
      assert steps[..0] == [];
    }
  }

  /** A batch of the pipeline reports its progress `(k + 1) / total`; a batch after a
      scrape reports nothing. */
  lemma BatchProgresses(variant: Variant, n: nat, k: nat)
    requires n > 0
    ensures Progresses(BatchSteps(variant, n, k))
            == if variant == Pipeline then [(k + 1) as real / NumBatches(n, SummaryBatchSize) as real] else []
  {
    var steps := BatchSteps(variant, n, k);
    if variant == Pipeline {
      var r := steps[0];
      assert [r][..0] == [];
      if k + 1 < NumBatches(n, SummaryBatchSize) {
        assert steps == [r] + [Pause];
        assert [Pause][..0] == [];
        ProgressesAppend([r], [Pause]);
      } else {
        assert steps == [r];
      }
    } else if k + 1 < NumBatches(n, SummaryBatchSize) {
      assert steps == [Pause];
      assert steps[..0] == [];
    }
  }

  /** The first `k` batches pause `k` times, but the last batch does not pause. */
  lemma {:induction false} StepsUpToPauses(variant: Variant, n: nat, k: nat)
    requires n > 0 && k <= NumBatches(n, SummaryBatchSize)
    ensures Pauses(StepsUpTo(variant, n, k)) == if k < NumBatches(n, SummaryBatchSize) then k else k - 1
  {
    var total := NumBatches(n, SummaryBatchSize);
    assert total > 0 by { NumBatchesBounds(n, SummaryBatchSize); }
    if k > 0 {
      var before, batch := StepsUpTo(variant, n, k - 1), BatchSteps(variant, n, k - 1);
      assert StepsUpTo(variant, n, k) == before + batch;
      StepsUpToPauses(variant, n, k - 1);
      PausesAppend(before, batch);
      BatchPauses(variant, n, k - 1);
      assert Pauses(before) == k - 1 && Pauses(batch) == if k < total then 1 else 0;
    }
  }

  /** After a scrape the loop reports nothing. */
  lemma {:induction false} StepsUpToQuiet(n: nat, k: nat)
    requires n > 0 && k <= NumBatches(n, SummaryBatchSize)
    ensures Progresses(StepsUpTo(PostScrape, n, k)) == []
  {
    if k > 0 {
      StepsUpToQuiet(n, k - 1);
      ProgressesAppend(StepsUpTo(PostScrape, n, k - 1), BatchSteps(PostScrape, n, k - 1));
      BatchProgresses(PostScrape, n, k - 1);
    }
  }

  /** The first `k` batches of the pipeline report `1 / total, …, k / total`. */
  lemma {:induction false} StepsUpToProgresses(n: nat, k: nat)
    requires n > 0 && k <= NumBatches(n, SummaryBatchSize)
    ensures |Progresses(StepsUpTo(Pipeline, n, k))| == k
    ensures forall i :: 0 <= i < k ==>
              Progresses(StepsUpTo(Pipeline, n, k))[i] == (i + 1) as real / NumBatches(n, SummaryBatchSize) as real
  {
    if k > 0 {
      var before, now := StepsUpTo(Pipeline, n, k - 1), StepsUpTo(Pipeline, n, k);
      assert now == before + BatchSteps(Pipeline, n, k - 1);
      StepsUpToProgresses(n, k - 1);
      ProgressesAppend(before, BatchSteps(Pipeline, n, k - 1));
      BatchProgresses(Pipeline, n, k - 1);
      Fractions(Progresses(before), Progresses(now), k, NumBatches(n, SummaryBatchSize));
    }
  }

  lemma Fractions(a: seq<real>, b: seq<real>, k: nat, total: nat)
    requires 0 < k <= total && |a| == k - 1 && b == a + [k as real / total as real]
    requires forall i :: 0 <= i < k - 1 ==> a[i] == (i + 1) as real / total as real
    ensures forall i :: 0 <= i < k ==> b[i] == (i + 1) as real / total as real
  {
  }

  /** Both loops sleep between batches and never after the last; after a scrape they
      report nothing. */
  lemma StepsPauses(variant: Variant, n: nat)
    ensures Pauses(Steps(variant, n)) == if n > 0 then NumBatches(n, SummaryBatchSize) - 1 else 0
    ensures variant == PostScrape ==> Progresses(Steps(variant, n)) == []
  {
    NumBatchesBounds(n, SummaryBatchSize);
    if n == 0 {
      if variant == Pipeline {
        assert Steps(variant, n)[..0] == [];
      }
    } else {
      StepsUpToPauses(variant, n, NumBatches(n, SummaryBatchSize));
      if variant == PostScrape {
        StepsUpToQuiet(n, NumBatches(n, SummaryBatchSize));
      }
    }
  }

  /** The pipeline reports one event per batch, or the single event when every item has
      a summary; the values rise strictly and end at exactly 1.0. */
  lemma StepsProgresses(variant: Variant, n: nat)
    requires variant == Pipeline
    ensures |Progresses(Steps(variant, n))| == if n == 0 then 1 else NumBatches(n, SummaryBatchSize)
    ensures Progresses(Steps(variant, n))[|Progresses(Steps(variant, n))| - 1] == 1.0
    ensures forall i, j :: 0 <= i < j < |Progresses(Steps(variant, n))| ==>
              0.0 < Progresses(Steps(variant, n))[i] < Progresses(Steps(variant, n))[j] <= 1.0
  {
    var total := NumBatches(n, SummaryBatchSize);
    NumBatchesBounds(n, SummaryBatchSize);
    if n == 0 {
      assert Steps(variant, n)[..0] == [];
    } else {
      StepsUpToProgresses(n, total);
      RisingFractions(Progresses(Steps(variant, n)), total);
    }
  }

  /** The fractions `1 / total, …, total / total` rise strictly from above 0 to 1. */
  lemma RisingFractions(ps: seq<real>, total: nat)
    requires total > 0 && |ps| == total
    requires forall i :: 0 <= i < total ==> ps[i] == (i + 1) as real / total as real
    ensures ps[total - 1] == 1.0
    ensures forall i, j :: 0 <= i < j < |ps| ==> 0.0 < ps[i] < ps[j] <= 1.0
  {
    forall i, j | 0 <= i < j < |ps| ensures 0.0 < ps[i] < ps[j] <= 1.0 {
      FractionsRise(i + 1, j + 1, total);
    }
    assert ps[total - 1] == total as real / total as real;
  }

  lemma FractionsRise(a: nat, b: nat, c: nat)
    requires 0 < a < b <= c
    ensures 0.0 < a as real / c as real < b as real / c as real <= 1.0
  {
  }

  // ---------------------------------------------------------------------------
  // The loops
  // ---------------------------------------------------------------------------

  /** `[i for i in items if not i.summary]`, as positions. */
  method PendingPositions(items: seq<ContentItem>) returns (pending: seq<nat>)
    ensures pending == Pending(items)
  {
    pending := [];
    for p := 0 to |items|
      invariant pending == Pending(items[..p])
    {
      assert items[..p + 1][..p] == items[..p];
      if !Truthy(items[p].summary) {
        pending := pending + [p];
      }
    }
    assert items[..|items|] == items;
  }

  /** `video_texts`: the description of each item of the batch, numbered from 1. */
  method DescribeBatch(variant: Variant, batch: seq<ContentItem>) returns (texts: seq<string>)
    ensures texts == VideoTexts(variant, batch)
  {
    texts := [];
    for i := 0 to |batch|
      invariant texts == VideoTexts(variant, batch[..i])
    {
      VideoTextsSnoc(variant, batch, i);
      texts := texts + [VideoText(variant, i, batch[i])];
    }
    assert batch[..|batch|] == batch;
  }

  lemma VideoTextsSnoc(variant: Variant, batch: seq<ContentItem>, i: nat)
    requires i < |batch|
    ensures VideoTexts(variant, batch[..i + 1]) == VideoTexts(variant, batch[..i]) + [VideoText(variant, i, batch[i])]
  {
    var a, b := VideoTexts(variant, batch[..i + 1]), VideoTexts(variant, batch[..i]) + [VideoText(variant, i, batch[i])];
    forall j | 0 <= j < i + 1 ensures a[j] == b[j] {
      assert batch[..i + 1][j] == batch[j];
      if j < i {
        assert batch[..i][j] == batch[j];
      }
    }
  }

  /** An item not yet reached is as it was: it is the `i`-th item without a summary. */
  lemma NotYetReached(variant: Variant, items: seq<ContentItem>, outcomes: Outcomes, done: nat, i: nat)
    requires done <= i < |Pending(items)|
    ensures SummarizedUpTo(variant, items, outcomes, done)[Pending(items)[i]] == Unsummarized(items)[i]
    ensures Unsummarized(items)[i] == items[Pending(items)[i]] && !Truthy(items[Pending(items)[i]].summary)
  {
    SummarizedUpToAt(variant, items, outcomes, done);
    PendingFacts(items);
  }

  /** Summarising one more item rewrites its position alone. */
  lemma SummarizedStep(variant: Variant, items: seq<ContentItem>, outcomes: Outcomes, done: nat)
    requires done < |Pending(items)|
    ensures var p := Pending(items)[done];
      SummarizedUpTo(variant, items, outcomes, done + 1)
      == SummarizedUpTo(variant, items, outcomes, done)[p := Resummarize(variant, outcomes)(done, items[p])]
  {
  }

  /** The batch's items, read from the partly summarised items: every one of them is
      still as it was. */
  method BatchItems(variant: Variant, items: seq<ContentItem>, ghost outcomes: Outcomes, current: seq<ContentItem>,
                    pending: seq<nat>, k: nat) returns (batch: seq<ContentItem>)
    requires pending == Pending(items) && k < NumBatches(|pending|, SummaryBatchSize)
    requires current == SummarizedUpTo(variant, items, outcomes, k * SummaryBatchSize)
    ensures batch == Batch(Unsummarized(items), SummaryBatchSize, k)
  {
    BatchStart(|pending|, SummaryBatchSize, k);
    var start, stop := k * SummaryBatchSize, BatchEnd(|pending|, SummaryBatchSize, k);
    ghost var u := Unsummarized(items);
    batch := [];
    for i := start to stop
      invariant batch == u[start..i]
    {
      NotYetReached(variant, items, outcomes, start, i);
      assert u[start..i + 1] == u[start..i] + [u[i]];
      batch := batch + [current[pending[i]]];
    }
  }

  /** The loop over a batch's items once the answer is known. */
  method ApplyOutcome(variant: Variant, items: seq<ContentItem>, ghost outcomes: Outcomes, current: seq<ContentItem>,
                      pending: seq<nat>, k: nat, outcome: Option<map<int, string>>) returns (updated: seq<ContentItem>)
    requires pending == Pending(items) && k < NumBatches(|pending|, SummaryBatchSize)
    requires current == SummarizedUpTo(variant, items, outcomes, k * SummaryBatchSize)
    requires outcome == outcomes(k)
    ensures updated == SummarizedUpTo(variant, items, outcomes, BatchEnd(|pending|, SummaryBatchSize, k))
  {
    BatchStart(|pending|, SummaryBatchSize, k);
    var start, stop := k * SummaryBatchSize, BatchEnd(|pending|, SummaryBatchSize, k);
    updated := current;
    for j := start to stop
      invariant updated == SummarizedUpTo(variant, items, outcomes, j)
    {
      BatchOfIndex(j, |pending|);
      assert j / SummaryBatchSize == k;
      AtNext(variant, items, outcomes, j);
      var item := ItemSummary(variant, updated[pending[j]], outcome);
      updated := updated[pending[j] := item];
    }
  }

  /** The next item to summarise is as it was, without a summary, and summarising it
      rewrites its position alone. */
  lemma AtNext(variant: Variant, items: seq<ContentItem>, outcomes: Outcomes, j: nat)
    requires j < |Pending(items)|
    ensures var p, current := Pending(items)[j], SummarizedUpTo(variant, items, outcomes, j);
      && current[p] == items[p] && !Truthy(items[p].summary)
      && SummarizedUpTo(variant, items, outcomes, j + 1)
         == current[p := items[p].(summary := Some(NewSummary(variant, items[p],
                                                    outcomes(j / SummaryBatchSize))))]
  {
    NotYetReached(variant, items, outcomes, j, j);
    SummarizedStep(variant, items, outcomes, j);
  }

  /** One item of a batch, given the batch's answer. */
  method ItemSummary(variant: Variant, item: ContentItem, outcome: Option<map<int, string>>) returns (r: ContentItem)
    ensures !Truthy(item.summary) ==> r == item.(summary := Some(NewSummary(variant, item, outcome)))
  {
    r := item;
    if outcome.Some? {
      var s := if item.id in outcome.value then outcome.value[item.id]
               else if variant == Pipeline then (if Truthy(item.caption) then Take(item.caption.value, FallbackChars) else NoSummary)
               else Take(Text(item.caption), FallbackChars);
      r := item.(summary := Some(s));
    } else if !Truthy(item.summary) {
      r := item.(summary := Some(Take(OrElse(item.caption, OrElse(item.title, "")), FallbackChars)));
    }
  }

  /** Batch `k`: its items described to the model, and the answer applied to them. */
  method SummarizeBatch(variant: Variant, items: seq<ContentItem>, ask: Model, parse: Parser, current: seq<ContentItem>,
                        pending: seq<nat>, k: nat) returns (updated: seq<ContentItem>)
    requires pending == Pending(items) && k < NumBatches(|pending|, SummaryBatchSize)
    requires current == SummarizedUpTo(variant, items, Answers(variant, items, ask, parse), k * SummaryBatchSize)
    ensures updated == SummarizedUpTo(variant, items, Answers(variant, items, ask, parse), BatchEnd(|pending|, SummaryBatchSize, k))
  {
    ghost var outcomes := Answers(variant, items, ask, parse);
    var batch := BatchItems(variant, items, outcomes, current, pending, k);
    var texts := DescribeBatch(variant, batch);
    var outcome := BatchOutcome(ask(texts), parse);
    assert outcome == outcomes(k);
    updated := ApplyOutcome(variant, items, outcomes, current, pending, k, outcome);
  }

  /** `_generate_video_summaries` (the pipeline) and `generate_summaries_for_new_items`
      (after a scrape): the items with their new summaries, and what the loop reported
      and slept. */
  method SummarizeVideos(variant: Variant, items: seq<ContentItem>, ask: Model, parse: Parser)
    returns (updated: seq<ContentItem>, steps: seq<Step>)
    ensures updated == Summarized(variant, items, ask, parse)
    ensures steps == Steps(variant, |Pending(items)|)
  {
    var pending := PendingPositions(items);
    var n := |pending|;
    if n == 0 {
      updated := items;
      steps := if variant == Pipeline then [Report(1.0, AllSummarized)] else [];
      return;
    }
    var total := (n + SummaryBatchSize - 1) / SummaryBatchSize;
    NumBatchesBounds(n, SummaryBatchSize);
    updated, steps := items, [];
    var k, done := 0, 0;
    while k < total
      invariant 0 <= k <= total && done <= n
      invariant done == if k < total then k * SummaryBatchSize else n
      invariant updated == SummarizedUpTo(variant, items, Answers(variant, items, ask, parse), done)
      invariant steps == StepsUpTo(variant, n, k)
    {
      updated := SummarizeBatch(variant, items, ask, parse, updated, pending, k);
      var events := BatchEvents(variant, n, total, k);
      steps := steps + events;
      NextBatch(n, k);
      done := BatchEnd(n, SummaryBatchSize, k);
      k := k + 1;
    }
  }

  /** Batch `k + 1`, if there is one, starts where batch `k` stops. */
  lemma NextBatch(n: nat, k: nat)
    requires k < NumBatches(n, SummaryBatchSize)
    ensures BatchEnd(n, SummaryBatchSize, k) == if k + 1 < NumBatches(n, SummaryBatchSize) then (k + 1) * SummaryBatchSize else n
  {
    NumBatchesBounds(n, SummaryBatchSize);
    MulSucc(k, SummaryBatchSize);
    if k + 1 < NumBatches(n, SummaryBatchSize) {
      BatchStart(n, SummaryBatchSize, k + 1);
    } else {
      assert k == NumBatches(n, SummaryBatchSize) - 1;
    }
  }

  /** The progress event of batch `k` (the pipeline only), and the sleep unless it is the
      last batch. */
  method BatchEvents(variant: Variant, n: nat, total: nat, k: nat) returns (events: seq<Step>)
    requires n > 0 && total == NumBatches(n, SummaryBatchSize)
    ensures events == BatchSteps(variant, n, k)
  {
    events := [];
    if variant == Pipeline {
      var stop := Min(k * SummaryBatchSize + SummaryBatchSize, n);
      events := events + [Report((k + 1) as real / total as real, SummarizedCount(stop, n))];
    }
    if k < total - 1 {
      events := events + [Pause];
    }
  }
}
