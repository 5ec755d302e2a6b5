/** The YouTube scraper: channel-URL normalisation, video-id extraction, upload-date
    parsing, and the incremental scrape that stores only videos not seen before. */
module YouTube {
  import opened Common
  import opened Dates
  import opened Models
  import opened Scraping

  const Site := "https://www.youtube.com"

  // ---------------------------------------------------------------------------
  // Channel URL
  // ---------------------------------------------------------------------------

  /** A channel URL or handle as a channel URL: a link is kept without trailing slashes,
      `@name` and `/path` are put under the site, and a bare name becomes `@name`. */
  function ChannelUrl(handleOrUrl: string): string
  {
    ChannelUrlOfStripped(Strip(handleOrUrl))
  }

  /** The address of a handle or link without surrounding whitespace. */
  function ChannelUrlOfStripped(h: string): string
  {
    if StartsWith(h, "http") then RStripChar(h, '/')
    else if StartsWith(h, "@") then Site + "/" + h
    else if StartsWith(h, "/") then Site + h
    else Site + "/@" + h
  }

  lemma StartsWithAppend(a: string, b: string, p: string)
    requires StartsWith(a, p)
    ensures StartsWith(a + b, p)
  {
    assert (a + b)[..|p|] == a[..|p|];
  }

  /** Removing trailing `c`s keeps a prefix that does not end in `c`. */
  lemma {:induction false} RStripKeepsPrefix(s: string, c: char, p: string)
    requires StartsWith(s, p) && p != [] && p[|p| - 1] != c
    ensures StartsWith(RStripChar(s, c), p)
    decreases |s|
  {
    if |s| > 0 && s[|s| - 1] == c {
      if |s| == |p| {
        assert s == p;
      } else {
        assert s[..|s| - 1][..|p|] == s[..|p|];
        RStripKeepsPrefix(s[..|s| - 1], c, p);
      }
    }
  }

  lemma StripNoop(s: string)
    requires s == [] || (!IsSpace(s[0]) && !IsSpace(s[|s| - 1]))
    ensures Strip(s) == s
  {
  }

  lemma StrippedEnds(s: string)
    requires Strip(s) == s && s != []
    ensures !IsSpace(s[0]) && !IsSpace(s[|s| - 1])
  {
    var t := StripStart(s);
    assert s == StripEnd(t) && s == t[..|s|];
  }

  lemma StripIdempotent(s: string)
    ensures Strip(Strip(s)) == Strip(s)
  {
    var t := StripStart(s);
    var u := StripEnd(t);
    if u != [] {
      assert u[0] == t[0];
    }
    StripNoop(u);
  }

  /** Every normalised channel address is a link: it starts with `http`. */
  lemma ChannelUrlIsLink(handleOrUrl: string)
    ensures StartsWith(ChannelUrl(handleOrUrl), "http")
  {
    var h := Strip(handleOrUrl);
    if StartsWith(h, "http") {
      RStripKeepsPrefix(h, '/', "http");
    } else if StartsWith(h, "@") {
      UnderSite("/" + h);
      assert Site + "/" + h == Site + ("/" + h);
    } else if StartsWith(h, "/") {
      UnderSite(h);
    } else {
      UnderSite("/@" + h);
    }
  }

  lemma UnderSite(t: string)
    ensures StartsWith(Site + t, "http")
  {
    assert (Site + t)[..4] == Site[..4];
  }

  /** A link keeps its text up to the trailing slashes, which are dropped. */
  lemma ChannelUrlOfLink(handleOrUrl: string)
    requires StartsWith(Strip(handleOrUrl), "http")
    ensures var r := ChannelUrl(handleOrUrl);
      !EndsWith(r, "/") && Strip(handleOrUrl) == r + seq(|Strip(handleOrUrl)| - |r|, _ => '/')
  {
    var h := Strip(handleOrUrl);
    var r := ChannelUrl(handleOrUrl);
    RStripKeepsPrefix(h, '/', "http");
    RStripRemovesOnly(h, '/');
  }

  lemma {:induction false} RStripRemovesOnly(s: string, c: char)
    ensures s == RStripChar(s, c) + seq(|s| - |RStripChar(s, c)|, _ => c)
    decreases |s|
  {
    if |s| > 0 && s[|s| - 1] == c {
      var s' := s[..|s| - 1];
      RStripRemovesOnly(s', c);
      var r := RStripChar(s', c);
      assert seq(|s| - |r|, _ => c) == seq(|s'| - |r|, _ => c) + [c];
      assert s == s' + [c];
    } else {
      assert seq(0, _ => c) == [];
    }
  }

  /** Surrounding whitespace never matters. */
  lemma ChannelUrlIgnoresBlanks(handleOrUrl: string)
    ensures ChannelUrl(Strip(handleOrUrl)) == ChannelUrl(handleOrUrl)
  {
    StripIdempotent(handleOrUrl);
  }

  /** The three ways of naming a channel by its handle, `name`, `@name` and `/@name`, give
      the same address. */
  lemma ChannelUrlHandleForms(name: string)
    requires name != [] && Strip(name) == name
    requires !StartsWith(name, "http") && name[0] != '@' && name[0] != '/'
    ensures ChannelUrl(name) == Site + "/@" + name
    ensures ChannelUrl("@" + name) == Site + "/@" + name
    ensures ChannelUrl("/@" + name) == Site + "/@" + name
  {
    StrippedEnds(name);
    BareHandle(name);
    AtHandle(name);
    SlashHandle(name);
  }

  lemma BareHandle(name: string)
    requires name != [] && Strip(name) == name
    requires !StartsWith(name, "http") && name[0] != '@' && name[0] != '/'
    ensures ChannelUrl(name) == Site + "/@" + name
  {
    assert !StartsWith(name, "@") && !StartsWith(name, "/");
  }

  lemma AtHandle(name: string)
    requires name != [] && !IsSpace(name[|name| - 1])
    ensures ChannelUrl("@" + name) == Site + "/@" + name
  {
    var at := "@" + name;
    StripNoop(at);
    assert !StartsWith(at, "http") && StartsWith(at, "@");
    assert Site + "/" + at == Site + "/@" + name;
  }

  lemma SlashHandle(name: string)
    requires name != [] && !IsSpace(name[|name| - 1])
    ensures ChannelUrl("/@" + name) == Site + "/@" + name
  {
    var slash := "/@" + name;
    StripNoop(slash);
    assert !StartsWith(slash, "http") && !StartsWith(slash, "@") && StartsWith(slash, "/");
    assert Site + slash == Site + "/@" + name;
  }

  /** Normalising again changes nothing, unless the address ends in a slash or a blank
      (a handle such as `name/`, whose address the second pass shortens). */
  lemma ChannelUrlFixedPoint(handleOrUrl: string)
    requires var r := ChannelUrl(handleOrUrl); r != [] && r[|r| - 1] != '/' && !IsSpace(r[|r| - 1])
    ensures ChannelUrl(ChannelUrl(handleOrUrl)) == ChannelUrl(handleOrUrl)
  {
    var r := ChannelUrl(handleOrUrl);
    ChannelUrlIsLink(handleOrUrl);
    assert r[0] == 'h';
    StripNoop(r);
    assert RStripChar(r, '/') == r;
  }

  // ---------------------------------------------------------------------------
  // Video id
  // ---------------------------------------------------------------------------

  /** `[a-zA-Z0-9_-]` */
  predicate IdChar(c: char)
  {
    IsAsciiLetter(c) || IsDigit(c) || c == '_' || c == '-'
  }

  const IdLength := 11

  predicate IsVideoId(id: string)
  {
    |id| == IdLength && forall k :: 0 <= k < |id| ==> IdChar(id[k])
  }

  /** `prefix` occurs at `i` and eleven id characters follow it. */
  predicate MatchesAt(s: string, prefix: string, i: nat)
  {
    OccursAt(s, prefix, i) && i + |prefix| + IdLength <= |s| && IsVideoId(s[i + |prefix|..i + |prefix| + IdLength])
  }

  /** `(?:p1|p2|…)([a-zA-Z0-9_-]{11})` tried at one position: the alternatives in order, the
      group being the eleven characters after the first prefix that leads to a match. */
  function MatchAt(s: string, prefixes: seq<string>, i: nat): Option<string>
  {
    if prefixes == [] then None
    else
      var p := prefixes[0];
      if MatchesAt(s, p, i) then Some(s[i + |p|..i + |p| + IdLength]) else MatchAt(s, prefixes[1..], i)
  }

  /** A match at one position is an id that follows one of the prefixes there, and there is
      none exactly when no prefix is followed by an id there. */
  lemma {:induction false} MatchAtFacts(s: string, prefixes: seq<string>, i: nat)
    ensures MatchAt(s, prefixes, i).Some? ==> IsVideoId(MatchAt(s, prefixes, i).value)
    ensures MatchAt(s, prefixes, i).Some? ==>
      exists p :: p in prefixes && MatchesAt(s, p, i) && MatchAt(s, prefixes, i).value == s[i + |p|..i + |p| + IdLength]
    ensures MatchAt(s, prefixes, i).None? <==> forall p :: p in prefixes ==> !MatchesAt(s, p, i)
  {
    if prefixes != [] {
      MatchAtFacts(s, prefixes[1..], i);
      assert forall q :: q in prefixes <==> q == prefixes[0] || q in prefixes[1..];
    }
  }

  /** `re.search`: the match at the first position from `i` on where the pattern matches. */
  function SearchFrom(s: string, prefixes: seq<string>, i: nat): Option<string>
    decreases |s| + 1 - i
  {
    if i > |s| then None
    else if MatchAt(s, prefixes, i).Some? then MatchAt(s, prefixes, i)
    else SearchFrom(s, prefixes, i + 1)
  }

  /** `re.search` finds the leftmost position where the pattern matches, and reports no match
      exactly when it matches nowhere. */
  lemma {:induction false} SearchFromLeftmost(s: string, prefixes: seq<string>, i: nat) returns (j: nat)
    ensures SearchFrom(s, prefixes, i).None? ==> forall m: nat :: i <= m <= |s| ==> MatchAt(s, prefixes, m).None?
    ensures SearchFrom(s, prefixes, i).Some? ==>
      && i <= j <= |s| && SearchFrom(s, prefixes, i) == MatchAt(s, prefixes, j)
      && forall k :: i <= k < j ==> MatchAt(s, prefixes, k).None?
    decreases |s| + 1 - i
  {
    j := i;
    if i <= |s| && MatchAt(s, prefixes, i).None? {
      j := SearchFromLeftmost(s, prefixes, i + 1);
      assert SearchFrom(s, prefixes, i) == SearchFrom(s, prefixes, i + 1);
    }
  }

  /** The search of a whole text, in terms of where the pattern matches. */
  lemma SearchFacts(s: string, prefixes: seq<string>)
    ensures SearchFrom(s, prefixes, 0).None? <==> !MatchesSomewhere(s, prefixes)
    ensures MatchesSomewhere(s, prefixes) ==> Leftmost(s, prefixes, SearchFrom(s, prefixes, 0))
  {
    var j := SearchFromLeftmost(s, prefixes, 0);
    if SearchFrom(s, prefixes, 0).Some? {
      assert MatchAt(s, prefixes, j).Some?;
    }
  }

  /** A pattern matches somewhere in `s`. */
  predicate MatchesSomewhere(s: string, prefixes: seq<string>)
  {
    exists j :: 0 <= j <= |s| && MatchAt(s, prefixes, j).Some?
  }

  /** `(?:v=|/v/|youtu\.be/)`, `(?:embed/)` and `(?:shorts/)`, tried in this order. */
  const ByQuery: seq<string> := ["v=", "/v/", "youtu.be/"]
  const ByEmbed: seq<string> := ["embed/"]
  const ByShorts: seq<string> := ["shorts/"]

  /** The id of a video link: the first of the three patterns that matches anywhere, at its
      leftmost match. */
  function VideoId(url: string): Option<string>
  {
    var q := SearchFrom(url, ByQuery, 0);
    if q.Some? then q
    else
      var e := SearchFrom(url, ByEmbed, 0);
      if e.Some? then e else SearchFrom(url, ByShorts, 0)
  }

  /** What is found is an id. */
  lemma VideoIdIsId(url: string)
    ensures VideoId(url).Some? ==> IsVideoId(VideoId(url).value)
  {
    SearchSome(url, ByQuery);
    SearchSome(url, ByEmbed);
    SearchSome(url, ByShorts);
  }

  lemma SearchSome(s: string, prefixes: seq<string>)
    ensures SearchFrom(s, prefixes, 0).Some? ==> IsVideoId(SearchFrom(s, prefixes, 0).value)
  {
    var j := SearchFromLeftmost(s, prefixes, 0);
    if SearchFrom(s, prefixes, 0).Some? {
      MatchAtFacts(s, prefixes, j);
    }
  }

  /** There is no id exactly when none of the three patterns matches anywhere. */
  lemma VideoIdNone(url: string)
    ensures VideoId(url).None? <==>
      !MatchesSomewhere(url, ByQuery) && !MatchesSomewhere(url, ByEmbed) && !MatchesSomewhere(url, ByShorts)
  {
    SearchFacts(url, ByQuery);
    SearchFacts(url, ByEmbed);
    SearchFacts(url, ByShorts);
  }

  /** The id comes from the first pattern that matches anywhere, at its leftmost match. */
  lemma VideoIdFirstPattern(url: string)
    ensures MatchesSomewhere(url, ByQuery) ==> Leftmost(url, ByQuery, VideoId(url))
    ensures !MatchesSomewhere(url, ByQuery) && MatchesSomewhere(url, ByEmbed) ==> Leftmost(url, ByEmbed, VideoId(url))
    ensures !MatchesSomewhere(url, ByQuery) && !MatchesSomewhere(url, ByEmbed) && MatchesSomewhere(url, ByShorts) ==>
      Leftmost(url, ByShorts, VideoId(url))
  {
    SearchFacts(url, ByQuery);
    SearchFacts(url, ByEmbed);
    SearchFacts(url, ByShorts);
  }

  /** `r` is the match at the leftmost position where the pattern matches. */
  predicate Leftmost(s: string, prefixes: seq<string>, r: Option<string>)
  {
    exists j :: 0 <= j <= |s| && r == MatchAt(s, prefixes, j) && forall k :: 0 <= k < j ==> MatchAt(s, prefixes, k).None?
  }

  /** The watch link the scraper stores for a video. */
  function WatchUrl(id: string): string
  {
    Site + "/watch?v=" + id
  }

  /** `https://www.youtube.com/watch?` around its only `y`. */
  const BeforeY := "https://www."
  const AfterY := "outube.com/watch?"
  const WatchPath := BeforeY + "y" + AfterY

  /** The characters of a watch link before its `v=`: no `v`, a single `y`, and the ones
      that rule out `youtu.be/` and `/v/` there. */
  lemma WatchPathChars(id: string)
    ensures var url := WatchUrl(id);
      && |url| == |WatchPath| + 2 + |id| && url[|WatchPath|] == 'v'
      && (forall j :: 0 <= j < |WatchPath| ==> url[j] != 'v' && (url[j] == 'y' ==> j == 12))
      && url[17] == 'b' && url[29] == '?'
  {
    var url := WatchUrl(id);
    assert url == BeforeY + "y" + AfterY + "v=" + id;
    assert 'v' !in BeforeY && 'y' !in BeforeY && 'v' !in AfterY && 'y' !in AfterY;
    forall j | 0 <= j < |WatchPath|
      ensures url[j] != 'v' && (url[j] == 'y' ==> j == 12)
    {
      if j < 12 {
        assert url[j] == BeforeY[j];
      } else if j > 12 {
        assert url[j] == AfterY[j - 13];
      }
    }
    assert url[17] == AfterY[4];
    assert url[29] == AfterY[16];
  }

  /** No prefix of the first pattern occurs before the `v=` of a watch link. */
  lemma WatchUrlNoEarlierMatch(id: string, k: nat)
    requires k < |WatchPath|
    ensures !OccursAt(WatchUrl(id), "v=", k)
    ensures !OccursAt(WatchUrl(id), "/v/", k)
    ensures !OccursAt(WatchUrl(id), "youtu.be/", k)
  {
    var url := WatchUrl(id);
    WatchPathChars(id);
    assert url[k..k + 2][0] == url[k];
    if k + 1 < |WatchPath| {
      assert url[k..k + 3][1] == url[k + 1];
    } else {
      assert url[k..k + 3][0] == url[k];
    }
    if k + 9 <= |url| {
      if k == 12 {
        assert url[k..k + 9][5] == url[17];
      } else {
        assert url[k..k + 9][0] == url[k];
      }
    }
  }

  /** The first pattern does not match where none of its three prefixes occurs. */
  lemma ByQueryNone(s: string, k: nat)
    requires !OccursAt(s, "v=", k) && !OccursAt(s, "/v/", k) && !OccursAt(s, "youtu.be/", k)
    ensures MatchAt(s, ByQuery, k).None?
  {
    var q1, q2 := ByQuery[1..], ByQuery[2..];
    assert ByQuery[0] == "v=" && q1[0] == "/v/" && q2[0] == "youtu.be/";
    assert q1[1..] == q2 && q2[1..] == [];
    assert !MatchesAt(s, ByQuery[0], k) && !MatchesAt(s, q1[0], k) && !MatchesAt(s, q2[0], k);
    assert MatchAt(s, q2, k) == MatchAt(s, [], k);
  }

  /** The watch link the scraper stores gives its video id back. */
  lemma WatchUrlRoundTrip(id: string)
    requires IsVideoId(id)
    ensures VideoId(WatchUrl(id)) == Some(id)
  {
    var url := WatchUrl(id);
    var n := |WatchPath|;
    assert url == WatchPath + "v=" + id;
    assert url[n..n + 2] == "v=" && url[n + 2..n + 2 + IdLength] == id;
    assert MatchesAt(url, "v=", n);
    assert MatchAt(url, ByQuery, n) == Some(id);
    forall k | 0 <= k < n ensures MatchAt(url, ByQuery, k).None? {
      WatchUrlNoEarlierMatch(id, k);
      ByQueryNone(url, k);
    }
    var j := SearchFromLeftmost(url, ByQuery, 0);
    SearchUpTo(url, ByQuery, 0, n);
  }

  /** With no match before `n`, the search from `i` is the search from `n`. */
  lemma {:induction false} SearchUpTo(s: string, prefixes: seq<string>, i: nat, n: nat)
    requires i <= n <= |s| && forall k :: i <= k < n ==> MatchAt(s, prefixes, k).None?
    ensures SearchFrom(s, prefixes, i) == SearchFrom(s, prefixes, n)
    decreases n - i
  {
    if i < n {
      SearchUpTo(s, prefixes, i + 1, n);
    }
  }

  // ---------------------------------------------------------------------------
  // Upload date
  // ---------------------------------------------------------------------------

  /** yt-dlp's `upload_date`: nothing for a missing or empty value, otherwise its first eight
      characters read as `%Y%m%d`, and nothing when they are not a date. */
  function ParseUploadDate(date: Option<string>): (r: Option<DateTime>)
    ensures !Truthy(date) ==> r.None?
    ensures r.Some? ==> IsDay(r.value)
  {
    if !Truthy(date) then None
    else
      var s := Take(date.value, 8);
      StrptimeCompactIsDay(s);
      Strptime(CompactDate, s)
  }

  /** The eight digits of a day, whatever follows them, give that day back. */
  lemma ParseUploadDateRoundTrip(d: DateTime, rest: string)
    requires IsDay(d)
    ensures ParseUploadDate(Some(CompactText(d) + rest)) == Some(d)
  {
    ZeroPadValue(d.year, 4);
    ZeroPadValue(d.month, 2);
    ZeroPadValue(d.day, 2);
    var t := CompactText(d);
    assert Take(t + rest, 8) == t;
    CompactDateRoundTrip(d);
  }

  // ---------------------------------------------------------------------------
  // Incremental scrape
  // ---------------------------------------------------------------------------

  /** One entry of yt-dlp's channel listing, as far as the scraper reads it. */
  datatype Entry = Entry(
    id: Field<string>, title: Field<string>, description: Field<string>, uploadDate: Field<string>,
    likeCount: Field<nat>, commentCount: Field<nat>, viewCount: Field<nat>,
    duration: Field<string>, tags: Field<string>)

  /** The transcript of a video and where it came from (`_get_transcript`'s pair). */
  datatype Transcript = Transcript(text: Option<string>, source: string)

  /** `entry.get("id", "")` */
  function EntryId(e: Entry): Option<string>
  {
    Get(e.id, "")
  }

  /** The filter of the listing: the entry's id is not among the stored ones. */
  predicate IsNew(e: Entry, existing: set<string>)
  {
    EntryId(e).None? || EntryId(e).value !in existing
  }

  /** `[v for v in flat if v.get("id", "") not in existing_ids]` */
  function NewEntries(flat: seq<Entry>, existing: set<string>): (r: seq<Entry>)
    ensures |r| <= |flat|
  {
    if flat == [] then []
    else NewEntries(flat[..|flat| - 1], existing) + (if IsNew(flat[|flat| - 1], existing) then [flat[|flat| - 1]] else [])
  }

  /** Each new entry is kept as often as it is listed, and no other entry is kept. */
  lemma {:induction false} NewEntriesCounts(flat: seq<Entry>, existing: set<string>, e: Entry)
    ensures multiset(NewEntries(flat, existing))[e] == if IsNew(e, existing) then multiset(flat)[e] else 0
  {
    if flat != [] {
      var init, last := flat[..|flat| - 1], flat[|flat| - 1];
      assert flat == init + [last];
      NewEntriesCounts(init, existing, e);
    }
  }

  /** The filter keeps the listing's order: filtering a listing in two parts is filtering
      each part and concatenating. */
  lemma {:induction false} NewEntriesConcat(a: seq<Entry>, b: seq<Entry>, existing: set<string>)
    ensures NewEntries(a + b, existing) == NewEntries(a, existing) + NewEntries(b, existing)
    decreases |b|
  {
    if b == [] {
      assert a + b == a;
    } else {
      var init := b[..|b| - 1];
      assert (a + b)[..|a + b| - 1] == a + init;
      NewEntriesConcat(a, init, existing);
    }
  }

  /** The entries already stored. */
  function OldEntries(flat: seq<Entry>, existing: set<string>): seq<Entry>
  {
    if flat == [] then []
    else OldEntries(flat[..|flat| - 1], existing) + (if IsNew(flat[|flat| - 1], existing) then [] else [flat[|flat| - 1]])
  }

  /** The new entries are exactly the listed ones whose id is not stored, and the count of
      skipped entries is the count of stored ones. */
  lemma {:induction false} NewEntriesFacts(flat: seq<Entry>, existing: set<string>)
    ensures forall e :: e in NewEntries(flat, existing) <==> e in flat && IsNew(e, existing)
    ensures forall e :: e in OldEntries(flat, existing) <==> e in flat && !IsNew(e, existing)
    ensures |flat| - |NewEntries(flat, existing)| == |OldEntries(flat, existing)|
  {
    if flat != [] {
      var init := flat[..|flat| - 1];
      NewEntriesFacts(init, existing);
      assert flat == init + [flat[|flat| - 1]];
    }
  }

  /** The row made of an entry and its transcript (before the table gives it a key). */
  function Draft(platformId: int, e: Entry, videoId: string, t: Transcript): ContentItem
  {
    var description := Text(Get(e.description, ""));
    ContentItem(
      0, platformId, "youtube_video", videoId, Some(WatchUrl(videoId)), Get(e.title, ""),
      Some(description), Some(if Truthy(t.text) then t.text.value else description), Some(t.source),
      ParseUploadDate(GetOpt(e.uploadDate)),
      Tally(e.likeCount), Tally(e.commentCount), Tally(e.viewCount), Duration(e.duration),
      Some(Printed(e.tags)), false, None)
  }

  datatype Message =
    | Fetching(url: string)
    | Found(listed: nat, skipped: nat, pending: nat)
    | Processed(done: nat, total: nat, title: Option<string>)

  /** A progress report: its stage, message, fraction done and the number of rows stored. */
  datatype Note = Note(stage: string, message: Message, progress: Option<real>, stored: Option<nat>)

  const TitleChars := 50

  function MessageText(m: Message): string
  {
    match m
    case Fetching(url) => "Fetching video list from " + url + "..."
    case Found(listed, skipped, pending) =>
      "Found " + NatToString(listed) + " videos (" + NatToString(skipped) + " already scraped, "
      + NatToString(pending) + " new to process)"
    case Processed(done, total, title) =>
      "Processed " + NatToString(done) + "/" + NatToString(total) + " new videos"
      + (if Truthy(title) && |title.value| > TitleChars then " (" + Take(title.value, TitleChars) + "...)" else "")
  }

  /** The report after the entry at `i`: every third entry and the last one. */
  predicate Reports(i: nat, total: nat)
  {
    i % 3 == 0 || i + 1 == total
  }

  /** The loop over the new entries: the rows made, in order, and the progress reports. */
  function Run(platformId: int, news: seq<Entry>, total: nat, transcripts: string -> Transcript)
    : (seq<ContentItem>, seq<Note>)
    requires |news| <= total
  {
    if news == [] then ([], [])
    else
      var before := Run(platformId, news[..|news| - 1], total, transcripts);
      var i := |news| - 1;
      var videoId := EntryId(news[i]);
      if !Truthy(videoId) then before
      else
        var d := Draft(platformId, news[i], videoId.value, transcripts(videoId.value));
        var drafts := before.0 + [d];
        var note := Note("processing", Processed(i + 1, total, d.title),
                         Some((i + 1) as real / total as real), Some(|drafts|));
        (drafts, before.1 + (if Reports(i, total) then [note] else []))
  }

  /** The reports of the run: after the entries at `i` with an id where `Reports(i, total)`. */
  ghost predicate ReportedAt(news: seq<Entry>, total: nat, i: nat)
  {
    i < |news| && Truthy(EntryId(news[i])) && Reports(i, total)
  }

  /** Each row comes from a new entry with an id, under that id and its watch link. */
  lemma {:induction false} RunRows(platformId: int, news: seq<Entry>, total: nat, transcripts: string -> Transcript)
    requires |news| <= total
    ensures var rows := Run(platformId, news, total, transcripts).0;
      && |rows| <= |news|
      && forall k :: 0 <= k < |rows| ==>
           && rows[k].externalId != "" && rows[k].platformId == platformId
           && rows[k].url == Some(WatchUrl(rows[k].externalId))
           && exists i :: 0 <= i < |news| && EntryId(news[i]) == Some(rows[k].externalId)
  {
    if news != [] {
      var init := news[..|news| - 1];
      RunRows(platformId, init, total, transcripts);
      assert forall i :: 0 <= i < |init| ==> init[i] == news[i];
    }
  }

  /** Every report follows an entry with an id at a reporting index, counts the entries
      processed so far, gives their fraction of the total, and counts no more stored rows
      than entries processed. */
  lemma {:induction false} RunNotes(platformId: int, news: seq<Entry>, total: nat, transcripts: string -> Transcript)
    requires |news| <= total
    ensures WellReported(news, total, Run(platformId, news, total, transcripts))
  {
    if news != [] {
      var init := news[..|news| - 1];
      RunNotes(platformId, init, total, transcripts);
      assert forall i :: 0 <= i < |init| ==> init[i] == news[i];
      assert forall i :: 0 <= i < |init| ==> (ReportedAt(init, total, i) <==> ReportedAt(news, total, i));
      RunRows(platformId, init, total, transcripts);
    }
  }

  /** What `RunNotes` states of the reports `r.1` of a run whose rows are `r.0`. */
  ghost predicate WellReported(news: seq<Entry>, total: nat, r: (seq<ContentItem>, seq<Note>))
    requires |news| <= total
  {
    forall k :: 0 <= k < |r.1| ==>
      && r.1[k].message.Processed?
      && 1 <= r.1[k].message.done <= |news| && r.1[k].message.total == total
      && ReportedAt(news, total, r.1[k].message.done - 1)
      && r.1[k].progress == Some(r.1[k].message.done as real / total as real)
      && r.1[k].stored.Some? && r.1[k].stored.value <= r.1[k].message.done && r.1[k].stored.value <= |r.0|
  }

  /** One more entry adds at most one report, after it and exactly when it is reported. */
  lemma RunLast(platformId: int, news: seq<Entry>, total: nat, transcripts: string -> Transcript)
    requires news != [] && |news| <= total
    ensures var notes := Run(platformId, news, total, transcripts).1;
      var before := Run(platformId, news[..|news| - 1], total, transcripts).1;
      && before <= notes && |notes| <= |before| + 1
      && (|notes| == |before| + 1 <==> ReportedAt(news, total, |news| - 1))
      && (|notes| == |before| + 1 ==>
            && notes[|before|].message == Processed(|news|, total, notes[|before|].message.title)
            && notes[|before|].progress == Some(|news| as real / total as real)
            && notes[|before|].stored == Some(|Run(platformId, news, total, transcripts).0|))
  {
  }

  /** Reports come in processing order. */
  lemma {:induction false} RunNotesOrdered(platformId: int, news: seq<Entry>, total: nat, transcripts: string -> Transcript)
    requires |news| <= total
    ensures var notes := Run(platformId, news, total, transcripts).1;
      forall k, l :: 0 <= k < l < |notes| ==>
        notes[k].message.Processed? && notes[l].message.Processed? && notes[k].message.done < notes[l].message.done
  {
    RunNotes(platformId, news, total, transcripts);
    if news != [] {
      var init := news[..|news| - 1];
      RunNotesOrdered(platformId, init, total, transcripts);
      RunNotes(platformId, init, total, transcripts);
      RunLast(platformId, news, total, transcripts);
      var notes := Run(platformId, news, total, transcripts).1;
      var before := Run(platformId, init, total, transcripts).1;
      forall k, l | 0 <= k < l < |notes|
        ensures notes[k].message.Processed? && notes[l].message.Processed? && notes[k].message.done < notes[l].message.done
      {
        assert notes[k] == before[k];
        if l < |before| {
          assert notes[l] == before[l];
        } else {
          assert notes[l].message.done == |news|;
        }
      }
    }
  }

  /** There is a report after every entry with an id at a reporting index. */
  lemma {:induction false} RunNotesCover(platformId: int, news: seq<Entry>, total: nat, transcripts: string -> Transcript)
    requires |news| <= total
    ensures var notes := Run(platformId, news, total, transcripts).1;
      forall i :: 0 <= i < |news| && ReportedAt(news, total, i) ==>
        exists k :: 0 <= k < |notes| && notes[k].message.Processed? && notes[k].message.done == i + 1
  {
    if news != [] {
      var init := news[..|news| - 1];
      RunNotesCover(platformId, init, total, transcripts);
      RunLast(platformId, news, total, transcripts);
      var notes := Run(platformId, news, total, transcripts).1;
      var before := Run(platformId, init, total, transcripts).1;
      forall i | 0 <= i < |news| && ReportedAt(news, total, i)
        ensures exists k :: 0 <= k < |notes| && notes[k].message.Processed? && notes[k].message.done == i + 1
      {
        if i < |init| {
          assert init[i] == news[i];
          assert ReportedAt(init, total, i);
          var k :| 0 <= k < |before| && before[k].message.Processed? && before[k].message.done == i + 1;
          assert notes[k] == before[k];
        } else {
          assert notes[|before|].message.done == i + 1;
        }
      }
    }
  }

  /** The progress fraction of a run over all the new entries stays within `(0, 1]`. */
  lemma RunProgress(platformId: int, news: seq<Entry>, transcripts: string -> Transcript)
    ensures var notes := Run(platformId, news, |news|, transcripts).1;
      forall k :: 0 <= k < |notes| ==> notes[k].progress.Some? && 0.0 < notes[k].progress.value <= 1.0
  {
    var notes := Run(platformId, news, |news|, transcripts).1;
    RunNotes(platformId, news, |news|, transcripts);
    forall k | 0 <= k < |notes| ensures notes[k].progress.Some? && 0.0 < notes[k].progress.value <= 1.0 {
      FractionAtMostOne(notes[k].message.done, |news|);
    }
  }

  /** When the last new entry has an id, the last report says the run is complete and counts
      every row stored. */
  lemma RunProgressLast(platformId: int, news: seq<Entry>, transcripts: string -> Transcript)
    requires news != [] && Truthy(EntryId(news[|news| - 1]))
    ensures var r := Run(platformId, news, |news|, transcripts);
      r.1 != [] && r.1[|r.1| - 1].progress == Some(1.0) && r.1[|r.1| - 1].stored == Some(|r.0|)
  {
    RunLast(platformId, news, |news|, transcripts);
    assert ReportedAt(news, |news|, |news| - 1);
    assert |news| as real / |news| as real == 1.0;
  }

  lemma FractionAtMostOne(n: nat, total: nat)
    requires 1 <= n <= total
    ensures 0.0 < n as real / total as real <= 1.0
  {
  }

  /** The run over one more entry. */
  lemma RunStep(platformId: int, news: seq<Entry>, i: nat, total: nat, transcripts: string -> Transcript)
    requires i < |news| <= total
    ensures var videoId := EntryId(news[i]);
      !Truthy(videoId) ==> Run(platformId, news[..i + 1], total, transcripts) == Run(platformId, news[..i], total, transcripts)
    ensures var videoId := EntryId(news[i]);
      var before := Run(platformId, news[..i], total, transcripts);
      var after := Run(platformId, news[..i + 1], total, transcripts);
      Truthy(videoId) ==>
        var d := Draft(platformId, news[i], videoId.value, transcripts(videoId.value));
        && after.0 == before.0 + [d]
        && after.1 == before.1 + (if Reports(i, total) then [Note("processing", Processed(i + 1, total, d.title),
                                  Some((i + 1) as real / total as real), Some(|before.0| + 1))] else [])
  {
    assert news[..i + 1][..i] == news[..i];
  }

  /** `scrape`: the stored external ids of the platform are collected, the listing is
      filtered to the new entries, each new entry with an id is stored at once with its
      transcript, and progress is reported; `stamped` says whether `last_scraped_at` was set,
      which the early return for an empty listing skips. */
  method Scrape(platform: Platform, table: ContentTable, flat: seq<Entry>, transcripts: string -> Transcript)
    returns (newItems: seq<ContentItem>, notes: seq<Note>, stamped: bool)
    requires table.Valid()
    modifies table
    ensures table.Valid()
    ensures var existing := ExternalIdsOf(old(table.items), platform.id);
      var news := NewEntries(flat, existing);
      var run := Run(platform.id, news, |news|, transcripts);
      && newItems == Stored(run.0, old(table.nextId))
      && table.items == old(table.items) + newItems
      && stamped == (news != [])
      && notes == [Note("scraping", Fetching(ChannelUrl(platform.handle)), None, None),
                   Note("processing", Found(|flat|, |flat| - |news|, |news|), None, None)] + run.1
  {
    var url := ChannelUrl(platform.handle);
    notes := [Note("scraping", Fetching(url), None, None)];
    var existing := table.ExternalIds(platform.id);
    var news := NewEntries(flat, existing);
    var total := |news|;
    notes := notes + [Note("processing", Found(|flat|, |flat| - total, total), None, None)];
    if total == 0 {
      newItems := [];
      stamped := false;
      assert Stored([], table.nextId) == [];
      return;
    }
    var reports;
    newItems, reports := StoreNew(platform.id, table, news, transcripts);
    notes := notes + reports;
    stamped := true;
  }

  /** The loop of `scrape` over the new entries: each one with an id is stored as it comes,
      and a report follows every third entry and the last one. */
  method StoreNew(platformId: int, table: ContentTable, news: seq<Entry>, transcripts: string -> Transcript)
    returns (newItems: seq<ContentItem>, reports: seq<Note>)
    requires table.Valid()
    modifies table
    ensures table.Valid()
    ensures var run := Run(platformId, news, |news|, transcripts);
      && newItems == Stored(run.0, old(table.nextId))
      && table.items == old(table.items) + newItems
      && reports == run.1
  {
    var total := |news|;
    newItems := [];
    reports := [];
    ghost var start := table.nextId;
    ghost var rows := table.items;
    ghost var run: (seq<ContentItem>, seq<Note>) := ([], []);
    var i := 0;
    while i < total
      invariant 0 <= i <= total && table.Valid()
      invariant run == Run(platformId, news[..i], total, transcripts)
      invariant newItems == Stored(run.0, start) && |newItems| == |run.0|
      invariant table.items == rows + newItems && table.nextId == start + |newItems|
      invariant reports == run.1
    {
      RunStep(platformId, news, i, total, transcripts);
      ghost var after := Run(platformId, news[..i + 1], total, transcripts);
      var entry := news[i];
      var videoId := EntryId(entry);
      if Truthy(videoId) {
        var t := transcripts(videoId.value);
        var item := Draft(platformId, entry, videoId.value, t);
        var row := table.Insert(item);
        StoredSnoc(run.0, item, start);
        newItems := newItems + [row];
        var note := Note("processing", Processed(i + 1, total, item.title),
                         Some((i + 1) as real / total as real), Some(|newItems|));
        assert after.0 == run.0 + [item];
        if i % 3 == 0 || i == total - 1 {
          assert Reports(i, total);
          reports := reports + [note];
          assert after.1 == run.1 + [note];
          run := (run.0 + [item], run.1 + [note]);
        } else {
          assert !Reports(i, total);
          assert after.1 == run.1;
          run := (run.0 + [item], run.1);
        }
      }
      assert run.0 == after.0 && run.1 == after.1;
      i := i + 1;
    }
    assert news[..i] == news;
  }
}
