/** The Instagram scraper: username extraction, the actor call with exponential backoff,
    timestamp parsing, and the scrape that stores only reels not seen before. */
module Instagram {
  import opened Common
  import opened Dates
  import opened Models
  import opened Scraping

  // ---------------------------------------------------------------------------
  // Username
  // ---------------------------------------------------------------------------

  const ProfileMarker := "instagram.com/"

  /** The username of a handle or profile link: the last path segment of a link (trailing
      slashes dropped), otherwise the handle without leading `@`s and surrounding blanks. */
  function Username(handleOrUrl: string): string
  {
    if OccursFrom(handleOrUrl, ProfileMarker, 0) then Last(Split(RStripChar(handleOrUrl, '/'), '/'))
    else Strip(LStripChar(handleOrUrl, '@'))
  }

  function Last(parts: seq<string>): string
    requires parts != []
  {
    parts[|parts| - 1]
  }

  /** The scan of the username extraction is Python's `"instagram.com/" in s`. */
  lemma IsLinkIff(handleOrUrl: string)
    ensures OccursFrom(handleOrUrl, ProfileMarker, 0) <==> Contains(handleOrUrl, ProfileMarker)
  {
    OccursFromIff(handleOrUrl, ProfileMarker, 0);
  }

  /** The username taken from a link is a single path segment. */
  lemma UsernameOfLinkIsSegment(handleOrUrl: string)
    requires Contains(handleOrUrl, ProfileMarker)
    ensures '/' !in Username(handleOrUrl)
  {
    IsLinkIff(handleOrUrl);
  }

  /** The last piece of a split is the text after the last separator. */
  lemma {:induction false} SplitFromLast(s: string, c: char, start: nat, i: nat, j: nat)
    requires start <= i <= |s| && forall k :: start <= k < i ==> s[k] != c
    requires j <= |s| && forall k :: j <= k < |s| ==> s[k] != c
    requires j == start || (i < j && s[j - 1] == c)
    ensures Last(SplitFrom(s, c, start, i)) == s[j..]
    decreases |s| - i
  {
    if j == start {
      SplitFromNoSep(s, c, start, i);
    } else if s[i] == c {
      SplitFromLast(s, c, i + 1, i + 1, j);
    } else {
      SplitFromLast(s, c, start, i + 1, j);
    }
  }

  /** Dropping trailing slashes from a text that does not end in one. */
  lemma {:induction false} RStripSlashes(t: string, n: nat)
    requires t != [] && t[|t| - 1] != '/'
    ensures RStripChar(t + seq(n, _ => '/'), '/') == t
    decreases n
  {
    if n > 0 {
      var s := t + seq(n, _ => '/');
      assert s[..|s| - 1] == t + seq(n - 1, _ => '/');
      RStripSlashes(t, n - 1);
    } else {
      assert t + seq(0, _ => '/') == t;
    }
  }

  /** A profile link, with or without trailing slashes, gives its username back. */
  lemma UsernameOfProfileUrl(prefix: string, user: string, slashes: nat)
    requires user != [] && '/' !in user
    ensures Username(prefix + ProfileMarker + user + seq(slashes, _ => '/')) == user
  {
    var t := prefix + ProfileMarker + user;
    var h := t + seq(slashes, _ => '/');
    ContainsMiddle(prefix, ProfileMarker, user + seq(slashes, _ => '/'));
    assert h == prefix + ProfileMarker + (user + seq(slashes, _ => '/'));
    IsLinkIff(h);
    assert t[|t| - 1] == user[|user| - 1];
    RStripSlashes(t, slashes);
    var j := |t| - |user|;
    assert t[j..] == user;
    assert t[j - 1] == ProfileMarker[|ProfileMarker| - 1];
    forall k | j <= k < |t| ensures t[k] != '/' {
      assert t[k] == user[k - j];
    }
    SplitFromLast(t, '/', 0, 0, j);
  }

  /** `sub` occurs in `c + s` only inside `s` when it does not start with `c`. */
  lemma ContainsCons(c: char, s: string, sub: string)
    requires sub != [] && sub[0] != c
    ensures Contains([c] + s, sub) <==> Contains(s, sub)
  {
    var t := [c] + s;
    if Contains(t, sub) {
      var i :| 0 <= i <= |t| && OccursAt(t, sub, i);
      assert t[i] == sub[0];
      assert t[i..i + |sub|] == s[i - 1..i - 1 + |sub|];
      assert OccursAt(s, sub, i - 1);
    }
    if Contains(s, sub) {
      var i :| 0 <= i <= |s| && OccursAt(s, sub, i);
      assert t[i + 1..i + 1 + |sub|] == s[i..i + |sub|];
      assert OccursAt(t, sub, i + 1);
    }
  }

  /** A leading `@` never changes the username of a handle. */
  lemma UsernameIgnoresAt(handle: string)
    requires !Contains(handle, ProfileMarker)
    ensures Username("@" + handle) == Username(handle)
  {
    ContainsCons('@', handle, ProfileMarker);
    IsLinkIff(handle);
    IsLinkIff("@" + handle);
    assert ("@" + handle)[1..] == handle;
  }

  /** A plain username is its own username. */
  lemma UsernameOfName(user: string)
    requires !Contains(user, ProfileMarker) && Strip(user) == user
    requires user == [] || user[0] != '@'
    ensures Username(user) == user
  {
    IsLinkIff(user);
  }

  // ---------------------------------------------------------------------------
  // The actor call with retries
  // ---------------------------------------------------------------------------

  const MaxRetries := 3
  const RetryDelay := 5

  /** The input of the reel scraper actor: a result limit only for a positive `max_reels`. */
  datatype ActorInput = ActorInput(usernames: seq<string>, resultsType: string, addParentData: bool,
                                   resultsLimit: Option<nat>)

  function RunInput(username: string, maxReels: int): ActorInput
  {
    ActorInput([username], "reels", false, if maxReels > 0 then Some(maxReels as nat) else None)
  }

  function Pow2(k: nat): nat
  {
    if k == 0 then 1 else 2 * Pow2(k - 1)
  }

  /** The pause after the failed attempt `k`. */
  function Delay(k: nat): nat
  {
    RetryDelay * Pow2(k)
  }

  /** The attempt loop from attempt `k` on: the result and the pauses slept before it. A
      failure of the last allowed attempt is the result; every earlier failure is followed
      by its pause and the next attempt. */
  function Retry(call: (ActorInput, nat) -> Result<seq<Reel>, string>, input: ActorInput, k: nat)
    : (seq<nat>, Result<seq<Reel>, string>)
    decreases MaxRetries - k
  {
    if k >= MaxRetries then ([], Ok([]))
    else
      var attempt := call(input, k);
      if attempt.Ok? || k == MaxRetries - 1 then ([], attempt)
      else
        var rest := Retry(call, input, k + 1);
        ([Delay(k)] + rest.0, rest.1)
  }

  /** From attempt `k` on: the pauses are `5 * 2^j` for the failed attempts `j` before the
      one that decides; a success is the first successful attempt's reels; a failure is the
      error of the last allowed attempt, after every attempt failed. */
  lemma {:induction false} RetryFacts(call: (ActorInput, nat) -> Result<seq<Reel>, string>, input: ActorInput, k: nat)
    requires k < MaxRetries
    ensures var (pauses, r) := Retry(call, input, k);
      && k + |pauses| < MaxRetries
      && (forall j :: 0 <= j < |pauses| ==> pauses[j] == Delay(k + j))
      && (forall j :: k <= j < k + |pauses| ==> call(input, j).Err?)
      && r == call(input, k + |pauses|)
      && (r.Err? ==> k + |pauses| == MaxRetries - 1)
    decreases MaxRetries - k
  {
    var attempt := call(input, k);
    if !(attempt.Ok? || k == MaxRetries - 1) {
      RetryFacts(call, input, k + 1);
    }
  }

  /** The call succeeds exactly when one of the allowed attempts does, and never sleeps
      longer than the pauses after the first two failures. */
  lemma RetryOutcome(call: (ActorInput, nat) -> Result<seq<Reel>, string>, input: ActorInput)
    ensures var (pauses, r) := Retry(call, input, 0);
      && (r.Ok? <==> exists j :: 0 <= j < MaxRetries && call(input, j).Ok?)
      && pauses <= [Delay(0), Delay(1)]
  {
    RetryFacts(call, input, 0);
    var (pauses, r) := Retry(call, input, 0);
    if r.Err? {
      forall j | 0 <= j < MaxRetries ensures call(input, j).Err? {
      }
    } else {
      assert call(input, |pauses|).Ok?;
    }
    assert Delay(0) == 5 && Delay(1) == 10;
  }

  /** `_scrape_with_retry`: the attempts run one after another; a failure of the last one
      is raised (an `Err`), any earlier failure is followed by its pause. */
  method ScrapeWithRetry(username: string, maxReels: int, call: (ActorInput, nat) -> Result<seq<Reel>, string>)
    returns (pauses: seq<nat>, result: Result<seq<Reel>, string>)
    ensures pauses == Retry(call, RunInput(username, maxReels), 0).0
    ensures result == Retry(call, RunInput(username, maxReels), 0).1
  {
    var input := RunInput(username, maxReels);
    pauses := [];
    var attempt := 0;
    assert pauses + Retry(call, input, 0).0 == Retry(call, input, 0).0;
    while attempt < MaxRetries
      invariant 0 <= attempt <= MaxRetries
      invariant pauses + Retry(call, input, attempt).0 == Retry(call, input, 0).0
      invariant Retry(call, input, attempt).1 == Retry(call, input, 0).1
      decreases MaxRetries - attempt
    {
      var outcome := call(input, attempt);
      if outcome.Ok? || attempt == MaxRetries - 1 {
        assert Retry(call, input, attempt) == ([], outcome);
        assert pauses + [] == pauses;
        result := outcome;
        return;
      }
      ghost var rest := Retry(call, input, attempt + 1);
      assert Retry(call, input, attempt) == ([Delay(attempt)] + rest.0, rest.1);
      assert (pauses + [Delay(attempt)]) + rest.0 == pauses + ([Delay(attempt)] + rest.0);
      pauses := pauses + [Delay(attempt)];
      attempt := attempt + 1;
    }
    assert pauses + [] == pauses;
    result := Ok([]);
  }

  // ---------------------------------------------------------------------------
  // Timestamps
  // ---------------------------------------------------------------------------

  /** A reel's `timestamp` value: a datetime, a string, a number of seconds since the epoch,
      or anything else. */
  datatype Stamp = AtTime(time: DateTime) | StampText(text: string) | StampNumber(seconds: real) | OtherStamp

  const TimestampFormats: seq<seq<Directive>> := [IsoMicros, IsoSeconds, DashedDate]

  /** The first of the formats from `k` on that parses `s`. */
  function FirstFormat(s: string, k: nat): (r: Option<DateTime>)
    ensures r.Some? ==> Valid(r.value)
    decreases |TimestampFormats| - k
  {
    if k >= |TimestampFormats| then None
    else
      var d := Strptime(TimestampFormats[k], s);
      if d.Some? then d else FirstFormat(s, k + 1)
  }

  /** `_parse_timestamp`; `fromTimestamp` is `datetime.fromtimestamp`, with `None` where it
      raises `OSError` or `ValueError`. */
  function ParseTimestamp(ts: Option<Stamp>, fromTimestamp: real -> Option<DateTime>): Option<DateTime>
  {
    match ts
    case None => None
    case Some(AtTime(d)) => Some(d)
    case Some(StampText(s)) => FirstFormat(s, 0)
    case Some(StampNumber(x)) => fromTimestamp(x)
    case Some(OtherStamp) => None
  }

  /** A string parses to a valid date, from the first format that accepts it, and to nothing
      when none of the three does. */
  lemma ParseTimestampText(s: string, fromTimestamp: real -> Option<DateTime>)
    ensures var r := ParseTimestamp(Some(StampText(s)), fromTimestamp);
      && (r.Some? ==> Valid(r.value))
      && (r.None? <==> forall k :: 0 <= k < |TimestampFormats| ==> Strptime(TimestampFormats[k], s).None?)
      && (r.Some? ==> exists k :: 0 <= k < |TimestampFormats| && r == Strptime(TimestampFormats[k], s)
                                && forall j :: 0 <= j < k ==> Strptime(TimestampFormats[j], s).None?)
  {
    var a, b, c := Strptime(IsoMicros, s), Strptime(IsoSeconds, s), Strptime(DashedDate, s);
    assert FirstFormat(s, 3) == None;
    if a.Some? {
      assert FirstFormat(s, 0) == Strptime(TimestampFormats[0], s);
    } else if b.Some? {
      assert FirstFormat(s, 0) == Strptime(TimestampFormats[1], s);
    } else if c.Some? {
      assert FirstFormat(s, 0) == Strptime(TimestampFormats[2], s);
    } else {
      assert FirstFormat(s, 0) == None;
    }
  }

  /** A `%Y-%m-%d` day is read back as that day: the two formats with a time of day before
      it reject it. */
  lemma ParseTimestampDay(d: DateTime, fromTimestamp: real -> Option<DateTime>)
    requires IsDay(d)
    ensures ParseTimestamp(Some(StampText(IsoDay(d))), fromTimestamp) == Some(d)
  {
    TimedFormatsRejectDay(d);
    DashedDateRoundTrip(d);
    var s := IsoDay(d);
    assert FirstFormat(s, 2) == Some(d);
  }

  // ---------------------------------------------------------------------------
  // Incremental scrape
  // ---------------------------------------------------------------------------

  /** One item of the actor's dataset, as far as the scraper reads it. */
  datatype Reel = Reel(
    shortCode: Field<string>, id: Field<string>, url: Field<string>, caption: Field<string>,
    transcript: Field<string>, timestamp: Field<Stamp>,
    likesCount: Field<nat>, commentsCount: Field<nat>, videoPlayCount: Field<nat>,
    videoDuration: Field<string>, hashtags: Field<string>)

  /** `str(reel.get("shortCode") or reel.get("id", ""))`: the printed `id` is `None` when that
      key holds `null`. */
  function ExtId(reel: Reel): string
  {
    var code := GetOpt(reel.shortCode);
    if Truthy(code) then code.value
    else match reel.id
      case Absent => ""
      case Null => "None"
      case Present(v) => v
  }

  /** `reel.get("transcript")` when it is not empty. */
  predicate HasTranscript(reel: Reel)
  {
    Truthy(GetOpt(reel.transcript))
  }

  /** The row made of a reel (before the table gives it a key). */
  function ReelDraft(platformId: int, reel: Reel, fromTimestamp: real -> Option<DateTime>): ContentItem
  {
    var caption := Get(reel.caption, "");
    ContentItem(
      0, platformId, "instagram_reel", ExtId(reel), Get(reel.url, ""), None, caption,
      if HasTranscript(reel) then GetOpt(reel.transcript) else caption,
      Some(if HasTranscript(reel) then "instagram_captions" else "caption_fallback"),
      ParseTimestamp(GetOpt(reel.timestamp), fromTimestamp),
      Tally(reel.likesCount), Tally(reel.commentsCount), Tally(reel.videoPlayCount),
      Duration(reel.videoDuration), Some(Printed(reel.hashtags)), false, None)
  }

  /** The transcript is the reel's own when it has one and its caption otherwise, and the
      recorded source says which. */
  lemma ReelDraftTranscript(platformId: int, reel: Reel, fromTimestamp: real -> Option<DateTime>)
    ensures var d := ReelDraft(platformId, reel, fromTimestamp);
      && (d.transcriptSource == Some("instagram_captions") <==> HasTranscript(reel))
      && (d.transcriptSource == Some("caption_fallback") <==> !HasTranscript(reel))
      && (HasTranscript(reel) ==> Truthy(d.transcript) && reel.transcript == Present(d.transcript.value))
      && (!HasTranscript(reel) ==> d.transcript == d.caption)
      && d.externalId == ExtId(reel) && d.title == None && d.platformId == platformId
  {
  }

  /** The reels whose external id is not among the stored ones, in order. */
  function NewReels(raw: seq<Reel>, existing: set<string>): (r: seq<Reel>)
    ensures |r| <= |raw|
  {
    if raw == [] then []
    else NewReels(raw[..|raw| - 1], existing) + (if ExtId(raw[|raw| - 1]) in existing then [] else [raw[|raw| - 1]])
  }

  /** Each new reel is kept as often as it was fetched, and no other reel is kept. */
  lemma {:induction false} NewReelsCounts(raw: seq<Reel>, existing: set<string>, e: Reel)
    ensures multiset(NewReels(raw, existing))[e] == if ExtId(e) in existing then 0 else multiset(raw)[e]
  {
    if raw != [] {
      var init, last := raw[..|raw| - 1], raw[|raw| - 1];
      assert raw == init + [last];
      NewReelsCounts(init, existing, e);
    }
  }

  /** The filter keeps the fetch order: filtering the reels in two parts is filtering each
      part and concatenating. */
  lemma {:induction false} NewReelsConcat(a: seq<Reel>, b: seq<Reel>, existing: set<string>)
    ensures NewReels(a + b, existing) == NewReels(a, existing) + NewReels(b, existing)
    decreases |b|
  {
    if b == [] {
      assert a + b == a;
    } else {
      var init := b[..|b| - 1];
      assert (a + b)[..|a + b| - 1] == a + init;
      NewReelsConcat(a, init, existing);
    }
  }

  lemma {:induction false} NewReelsFacts(raw: seq<Reel>, existing: set<string>)
    ensures forall e :: e in NewReels(raw, existing) <==> e in raw && ExtId(e) !in existing
  {
    if raw != [] {
      NewReelsFacts(raw[..|raw| - 1], existing);
      assert raw == raw[..|raw| - 1] + [raw[|raw| - 1]];
    }
  }

  datatype ReelMessage =
    | ScrapingUser(username: string)
    | ProcessingReels(count: nat)
    | ProcessedReels(done: nat, total: nat)

  /** A progress report: its stage, message and fraction done. */
  datatype Progress = Progress(stage: string, message: ReelMessage, fraction: Option<real>)

  function ReelMessageText(m: ReelMessage): string
  {
    match m
    case ScrapingUser(u) => "Scraping @" + u + " reels..."
    case ProcessingReels(n) => "Processing " + NatToString(n) + " reels..."
    case ProcessedReels(done, total) => "Processed " + NatToString(done) + "/" + NatToString(total) + " reels"
  }

  /** The loop over the fetched reels: the rows made, in order, and the reports, one after
      each new reel at an index divisible by five. */
  function Process(platformId: int, raw: seq<Reel>, total: nat, existing: set<string>,
                   fromTimestamp: real -> Option<DateTime>): (seq<ContentItem>, seq<Progress>)
    requires |raw| <= total
  {
    if raw == [] then ([], [])
    else
      var before := Process(platformId, raw[..|raw| - 1], total, existing, fromTimestamp);
      var i := |raw| - 1;
      if ExtId(raw[i]) in existing then before
      else
        var note := Progress("processing", ProcessedReels(i + 1, total), Some((i + 1) as real / total as real));
        (before.0 + [ReelDraft(platformId, raw[i], fromTimestamp)], before.1 + (if i % 5 == 0 then [note] else []))
  }

  /** The rows are the drafts of the new reels, in the order fetched. */
  lemma {:induction false} ProcessRows(platformId: int, raw: seq<Reel>, total: nat, existing: set<string>,
                                       fromTimestamp: real -> Option<DateTime>)
    requires |raw| <= total
    ensures var rows := Process(platformId, raw, total, existing, fromTimestamp).0;
      var news := NewReels(raw, existing);
      |rows| == |news| && forall k :: 0 <= k < |rows| ==> rows[k] == ReelDraft(platformId, news[k], fromTimestamp)
  {
    if raw != [] {
      ProcessRows(platformId, raw[..|raw| - 1], total, existing, fromTimestamp);
    }
  }

  /** What `ProcessNotes` states of the reports of a run over `raw`. */
  ghost predicate WellNoted(raw: seq<Reel>, total: nat, existing: set<string>, notes: seq<Progress>)
    requires |raw| <= total
  {
    forall k :: 0 <= k < |notes| ==>
      && notes[k].message.ProcessedReels?
      && 1 <= notes[k].message.done <= |raw| && notes[k].message.total == total
      && (notes[k].message.done - 1) % 5 == 0 && ExtId(raw[notes[k].message.done - 1]) !in existing
      && notes[k].fraction == Some(notes[k].message.done as real / total as real)
  }

  /** Every report follows a new reel at an index divisible by five and gives the fraction
      of the fetched reels that index reached. */
  lemma {:induction false} ProcessNotes(platformId: int, raw: seq<Reel>, total: nat, existing: set<string>,
                                        fromTimestamp: real -> Option<DateTime>)
    requires |raw| <= total
    ensures WellNoted(raw, total, existing, Process(platformId, raw, total, existing, fromTimestamp).1)
  {
    if raw != [] {
      var init := raw[..|raw| - 1];
      ProcessNotes(platformId, init, total, existing, fromTimestamp);
      assert forall i :: 0 <= i < |init| ==> init[i] == raw[i];
    }
  }

  /** One more reel adds at most one report, after it and exactly when it is new and its
      index is divisible by five. */
  lemma ProcessLast(platformId: int, raw: seq<Reel>, total: nat, existing: set<string>,
                    fromTimestamp: real -> Option<DateTime>)
    requires raw != [] && |raw| <= total
    ensures var notes := Process(platformId, raw, total, existing, fromTimestamp).1;
      var before := Process(platformId, raw[..|raw| - 1], total, existing, fromTimestamp).1;
      && before <= notes && |notes| <= |before| + 1
      && (|notes| == |before| + 1 <==> (|raw| - 1) % 5 == 0 && ExtId(raw[|raw| - 1]) !in existing)
      && (|notes| == |before| + 1 ==> notes[|before|].message == ProcessedReels(|raw|, total))
  {
  }

  /** Reports come in the order of the reels. */
  lemma {:induction false} ProcessNotesOrdered(platformId: int, raw: seq<Reel>, total: nat, existing: set<string>,
                                               fromTimestamp: real -> Option<DateTime>)
    requires |raw| <= total
    ensures var notes := Process(platformId, raw, total, existing, fromTimestamp).1;
      forall k, l :: 0 <= k < l < |notes| ==>
        notes[k].message.ProcessedReels? && notes[l].message.ProcessedReels?
        && notes[k].message.done < notes[l].message.done
  {
    ProcessNotes(platformId, raw, total, existing, fromTimestamp);
    if raw != [] {
      var init := raw[..|raw| - 1];
      ProcessNotesOrdered(platformId, init, total, existing, fromTimestamp);
      ProcessNotes(platformId, init, total, existing, fromTimestamp);
      ProcessLast(platformId, raw, total, existing, fromTimestamp);
      var notes := Process(platformId, raw, total, existing, fromTimestamp).1;
      var before := Process(platformId, init, total, existing, fromTimestamp).1;
      forall k, l | 0 <= k < l < |notes|
        ensures notes[k].message.ProcessedReels? && notes[l].message.ProcessedReels?
                && notes[k].message.done < notes[l].message.done
      {
        assert notes[k] == before[k];
        if l < |before| {
          assert notes[l] == before[l];
        }
      }
    }
  }

  /** There is a report after every new reel at an index divisible by five. */
  lemma {:induction false} ProcessNotesCover(platformId: int, raw: seq<Reel>, total: nat, existing: set<string>,
                                             fromTimestamp: real -> Option<DateTime>)
    requires |raw| <= total
    ensures var notes := Process(platformId, raw, total, existing, fromTimestamp).1;
      forall i :: 0 <= i < |raw| && i % 5 == 0 && ExtId(raw[i]) !in existing ==>
        exists k :: 0 <= k < |notes| && notes[k].message == ProcessedReels(i + 1, total)
  {
    if raw != [] {
      var init := raw[..|raw| - 1];
      ProcessNotesCover(platformId, init, total, existing, fromTimestamp);
      ProcessLast(platformId, raw, total, existing, fromTimestamp);
      var notes := Process(platformId, raw, total, existing, fromTimestamp).1;
      var before := Process(platformId, init, total, existing, fromTimestamp).1;
      forall i | 0 <= i < |raw| && i % 5 == 0 && ExtId(raw[i]) !in existing
        ensures exists k :: 0 <= k < |notes| && notes[k].message == ProcessedReels(i + 1, total)
      {
        if i < |init| {
          assert init[i] == raw[i];
          var k :| 0 <= k < |before| && before[k].message == ProcessedReels(i + 1, total);
          assert notes[k] == before[k];
        } else {
          assert notes[|before|].message == ProcessedReels(i + 1, total);
        }
      }
    }
  }

  /** The run over one more reel. */
  lemma ProcessStep(platformId: int, raw: seq<Reel>, i: nat, existing: set<string>,
                    fromTimestamp: real -> Option<DateTime>)
    requires i < |raw|
    ensures var before := Process(platformId, raw[..i], |raw|, existing, fromTimestamp);
      var after := Process(platformId, raw[..i + 1], |raw|, existing, fromTimestamp);
      && (ExtId(raw[i]) in existing ==> after == before)
      && (ExtId(raw[i]) !in existing ==> after.0 == before.0 + [ReelDraft(platformId, raw[i], fromTimestamp)])
      && (ExtId(raw[i]) !in existing && i % 5 == 0 ==>
            after.1 == before.1 + [Progress("processing", ProcessedReels(i + 1, |raw|), Some((i + 1) as real / |raw| as real))])
      && (ExtId(raw[i]) !in existing && i % 5 != 0 ==> after.1 == before.1)
  {
    assert raw[..i + 1][..i] == raw[..i];
  }

  /** The loop of `scrape` over the fetched reels: the new ones become rows, and reports
      follow every fifth index. */
  method ProcessReels(platformId: int, raw: seq<Reel>, existing: set<string>,
                      fromTimestamp: real -> Option<DateTime>)
    returns (drafts: seq<ContentItem>, notes: seq<Progress>)
    ensures (drafts, notes) == Process(platformId, raw, |raw|, existing, fromTimestamp)
  {
    drafts := [];
    notes := [];
    var i := 0;
    while i < |raw|
      invariant 0 <= i <= |raw|
      invariant drafts == Process(platformId, raw[..i], |raw|, existing, fromTimestamp).0
      invariant notes == Process(platformId, raw[..i], |raw|, existing, fromTimestamp).1
    {
      ProcessStep(platformId, raw, i, existing, fromTimestamp);
      var reel := raw[i];
      var extId := ExtId(reel);
      if extId !in existing {
        drafts := drafts + [ReelDraft(platformId, reel, fromTimestamp)];
        if i % 5 == 0 {
          notes := notes + [Progress("processing", ProcessedReels(i + 1, |raw|),
                                     Some((i + 1) as real / |raw| as real))];
        }
      }
      i := i + 1;
    }
    assert raw[..i] == raw;
  }

  /** `scrape`: the stored external ids are collected, the reels fetched with retries, the
      new ones made into rows and stored together, and `last_scraped_at` set (`stamped`) even
      when nothing was new; a failure of the fetch is raised before anything is stored. */
  method Scrape(platform: Platform, table: ContentTable, maxReels: int,
                call: (ActorInput, nat) -> Result<seq<Reel>, string>, fromTimestamp: real -> Option<DateTime>)
    returns (outcome: Result<seq<ContentItem>, string>, notes: seq<Progress>, pauses: seq<nat>, stamped: bool)
    requires table.Valid()
    modifies table
    ensures table.Valid()
    ensures Scraped(platform, Username(platform.handle), maxReels, call, fromTimestamp,
                    old(table.items), old(table.nextId), table.items, outcome, notes, pauses, stamped)
  {
    var username := Username(platform.handle);
    outcome, notes, pauses, stamped := ScrapeUser(platform, username, table, maxReels, call, fromTimestamp);
  }

  /** What `scrape` leaves behind for the username `username`, from the table rows `before`
      and the next key `nextId` to the rows `after`. */
  ghost predicate Scraped(platform: Platform, username: string, maxReels: int,
                          call: (ActorInput, nat) -> Result<seq<Reel>, string>,
                          fromTimestamp: real -> Option<DateTime>,
                          before: seq<ContentItem>, nextId: int, after: seq<ContentItem>,
                          outcome: Result<seq<ContentItem>, string>, notes: seq<Progress>, pauses: seq<nat>,
                          stamped: bool)
  {
    var existing := ExternalIdsOf(before, platform.id);
    var fetched := Retry(call, RunInput(username, maxReels), 0);
    var first := Progress("scraping", ScrapingUser(username), None);
    && pauses == fetched.0
    && (fetched.1.Err? ==> outcome == Err(fetched.1.error) && notes == [first] && !stamped && after == before)
    && (fetched.1.Ok? ==>
          var raw := fetched.1.value;
          var run := Process(platform.id, raw, |raw|, existing, fromTimestamp);
          && outcome == Ok(Stored(run.0, nextId))
          && after == before + outcome.value
          && notes == [first, Progress("processing", ProcessingReels(|raw|), None)] + run.1
          && stamped)
  }

  /** `scrape` once the username is known. */
  method ScrapeUser(platform: Platform, username: string, table: ContentTable, maxReels: int,
                    call: (ActorInput, nat) -> Result<seq<Reel>, string>, fromTimestamp: real -> Option<DateTime>)
    returns (outcome: Result<seq<ContentItem>, string>, notes: seq<Progress>, pauses: seq<nat>, stamped: bool)
    requires table.Valid()
    modifies table
    ensures table.Valid()
    ensures Scraped(platform, username, maxReels, call, fromTimestamp,
                    old(table.items), old(table.nextId), table.items, outcome, notes, pauses, stamped)
  {
    notes := [Progress("scraping", ScrapingUser(username), None)];
    var existing := table.ExternalIds(platform.id);
    var fetched;
    pauses, fetched := ScrapeWithRetry(username, maxReels, call);
    if fetched.Err? {
      outcome := Err(fetched.error);
      stamped := false;
      return;
    }
    var raw := fetched.value;
    notes := notes + [Progress("processing", ProcessingReels(|raw|), None)];
    var stored, reports := StoreReels(platform.id, table, raw, existing, fromTimestamp);
    notes := notes + reports;
    outcome := Ok(stored);
    stamped := true;
  }

  /** The new reels made into rows and stored together, with the reports of the loop. */
  method StoreReels(platformId: int, table: ContentTable, raw: seq<Reel>, existing: set<string>,
                    fromTimestamp: real -> Option<DateTime>)
    returns (stored: seq<ContentItem>, reports: seq<Progress>)
    requires table.Valid()
    modifies table
    ensures table.Valid()
    ensures var run := Process(platformId, raw, |raw|, existing, fromTimestamp);
      && stored == Stored(run.0, old(table.nextId))
      && table.items == old(table.items) + stored
      && reports == run.1
  {
    var drafts;
    drafts, reports := ProcessReels(platformId, raw, existing, fromTimestamp);
    stored := table.InsertAll(drafts);
  }
}
