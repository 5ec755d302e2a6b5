/** The keyword half of chat retrieval (`AIChatService._keyword_search`): the question's
    first characters are lower-cased and split into words, the most frequent non-stop-words
    become keywords, every item of the creator is scored by how often the keywords occur in
    its text, and the best-scoring items are returned. */
module KeywordSearch {
  import opened Common
  import opened Models
  import opened Sorting

  /** `settings.max_keyword_extract_chars` */
  const MaxKeywordExtractChars: nat := 500
  /** `settings.max_keywords` */
  const MaxKeywords: nat := 15
  /** The fallback when every word is a stop-word. */
  const FallbackWords: nat := 5

  const StopWords: set<string> := {
    "the", "a", "an", "is", "are", "was", "were", "be", "been", "being",
    "have", "has", "had", "do", "does", "did", "will", "would", "could",
    "should", "may", "might", "can", "shall", "to", "of", "in", "for",
    "on", "with", "at", "by", "from", "as", "into", "about", "between",
    "through", "after", "before", "during", "without", "this", "that",
    "these", "those", "it", "its", "he", "she", "they", "them", "his",
    "her", "their", "my", "your", "our", "what", "which", "who", "whom",
    "how", "when", "where", "why", "not", "no", "nor", "but", "or",
    "and", "if", "then", "so", "than", "too", "very", "just", "more",
    "most", "some", "any", "all", "each", "every", "both", "few", "many",
    "much", "such", "own", "other", "i", "me", "we", "you", "up", "out",
    "get", "got", "like", "also", "tell", "think", "know", "say", "said",
    "make", "go", "going", "want", "really", "right"
  }

  // ---------------------------------------------------------------------------
  // Words: re.findall(r'\b[a-zA-Z]{3,}\b', text)
  // ---------------------------------------------------------------------------

  /** A character `\w` matches: a letter, a digit or `_`. */
  predicate IsWordChar(c: char)
  {
    IsAsciiLetter(c) || IsDigit(c) || c == '_'
  }

  /** A match of `\b[a-zA-Z]{3,}\b` spanning `s[i..j]`. */
  predicate BoundedRun(s: string, i: int, j: int)
  {
    && 0 <= i && i + 3 <= j <= |s|
    && (forall k :: i <= k < j ==> IsAsciiLetter(s[k]))
    && (i == 0 || !IsWordChar(s[i - 1]))
    && (j == |s| || !IsWordChar(s[j]))
  }

  /** `t` is matched at position `a` of `s`. */
  predicate TokenAt(s: string, t: string, a: int)
  {
    BoundedRun(s, a, a + |t|) && s[a..a + |t|] == t
  }

  /** The end of the run of letters that starts at `i`. */
  function RunEnd(s: string, i: nat): (j: nat)
    requires i <= |s|
    ensures i <= j <= |s|
    ensures forall k :: i <= k < j ==> IsAsciiLetter(s[k])
    ensures j == |s| || !IsAsciiLetter(s[j])
    ensures i < |s| && IsAsciiLetter(s[i]) ==> j > i
    decreases |s| - i
  {
    if i < |s| && IsAsciiLetter(s[i]) then RunEnd(s, i + 1) else i
  }

  /** The matches from position `i` on. The regex engine can only start a match at a
      letter that follows a non-word character; from there the greedy run must end at a
      non-word character, and no shorter run can end at a boundary. */
  function TokensFrom(s: string, i: nat): seq<string>
    requires i <= |s|
    decreases |s| - i
  {
    if i == |s| then []
    else if IsAsciiLetter(s[i]) && (i == 0 || !IsWordChar(s[i - 1])) then
      var j := RunEnd(s, i);
      if j - i >= 3 && (j == |s| || !IsWordChar(s[j])) then [s[i..j]] + TokensFrom(s, j)
      else TokensFrom(s, j)
    else TokensFrom(s, i + 1)
  }

  function Tokenize(s: string): seq<string>
  {
    TokensFrom(s, 0)
  }

  /** Every word found is a match of the pattern somewhere in the text. */
  lemma {:induction false} TokensSound(s: string, i: nat)
    requires i <= |s|
    ensures forall t :: t in TokensFrom(s, i) ==> exists a :: i <= a && TokenAt(s, t, a)
    decreases |s| - i
  {
    if i < |s| {
      if IsAsciiLetter(s[i]) && (i == 0 || !IsWordChar(s[i - 1])) {
        var j := RunEnd(s, i);
        TokensSound(s, j);
        if j - i >= 3 && (j == |s| || !IsWordChar(s[j])) {
          assert TokenAt(s, s[i..j], i);
        }
      } else {
        TokensSound(s, i + 1);
      }
    }
  }

  lemma {:induction false} RunEndAt(s: string, i: nat, b: nat)
    requires i <= b <= |s|
    requires forall k :: i <= k < b ==> IsAsciiLetter(s[k])
    requires b == |s| || !IsAsciiLetter(s[b])
    ensures RunEnd(s, i) == b
    decreases b - i
  {
    if i < b {
      RunEndAt(s, i + 1, b);
    }
  }

  lemma {:induction false} RunEndBefore(s: string, i: nat, m: nat)
    requires i <= m < |s| && !IsAsciiLetter(s[m])
    ensures RunEnd(s, i) <= m
    decreases m - i
  {
    if IsAsciiLetter(s[i]) {
      RunEndBefore(s, i + 1, m);
    }
  }

  /** Every match of the pattern is found. */
  lemma {:induction false} TokensComplete(s: string, i: nat, a: nat, b: nat)
    requires i <= a && BoundedRun(s, a, b)
    ensures s[a..b] in TokensFrom(s, i)
    decreases |s| - i
  {
    if i == a {
      RunEndAt(s, a, b);
    } else if IsAsciiLetter(s[i]) && (i == 0 || !IsWordChar(s[i - 1])) {
      RunEndBefore(s, i, a - 1);
      TokensComplete(s, RunEnd(s, i), a, b);
    } else {
      TokensComplete(s, i + 1, a, b);
    }
  }

  // ---------------------------------------------------------------------------
  // Keywords
  // ---------------------------------------------------------------------------

  /** The words of the question that keyword extraction looks at. */
  function Words(question: string): seq<string>
  {
    Tokenize(Lower(Take(question, MaxKeywordExtractChars)))
  }

  function NonStop(words: seq<string>): (r: seq<string>)
    ensures forall w :: w in r <==> w in words && w !in StopWords
  {
    if words == [] then []
    else (if words[0] in StopWords then [] else [words[0]]) + NonStop(words[1..])
  }

  /** The words that compete for keyword places: the non-stop-words, or the first five
      words when there are none. */
  function Candidates(words: seq<string>): seq<string>
  {
    var kept := NonStop(words);
    if kept != [] then kept else Take(words, FallbackWords)
  }

  /** The distinct elements in the order of their first occurrence (`Counter`'s order). */
  function Distinct(s: seq<string>): (r: seq<string>)
    ensures forall x :: x in r <==> x in s
    ensures forall i, j :: 0 <= i < j < |r| ==> r[i] != r[j]
  {
    if s == [] then []
    else
      var r := Distinct(s[..|s| - 1]);
      assert forall x :: x in s <==> x in s[..|s| - 1] || x == s[|s| - 1];
      if s[|s| - 1] in r then r else r + [s[|s| - 1]]
  }

  /** `[w for w, _ in Counter(c).most_common(n)]`: the distinct words by descending count,
      ties in first-occurrence order, at most `n` of them. */
  function MostCommon(c: seq<string>, n: nat): seq<string>
  {
    Take(SortDesc(Distinct(c), w => multiset(c)[w] as real), n)
  }

  function Keywords(question: string): seq<string>
  {
    var c := Candidates(Words(question));
    if c == [] then [] else MostCommon(c, MaxKeywords)
  }

  /** A word is a lower-case ASCII run of at least three letters. */
  predicate LowerWord(w: string)
  {
    |w| >= 3 && forall k :: 0 <= k < |w| ==> IsAsciiLower(w[k])
  }

  lemma WordsAreLowerWords(question: string)
    ensures forall w :: w in Words(question) ==> LowerWord(w)
  {
    var s := Lower(Take(question, MaxKeywordExtractChars));
    TokensSound(s, 0);
    forall w | w in Words(question) ensures LowerWord(w) {
      var a :| 0 <= a && TokenAt(s, w, a);
      forall k | 0 <= k < |w| ensures IsAsciiLower(w[k]) {
        assert w[k] == s[a + k];
      }
    }
  }

  lemma MostCommonFacts(c: seq<string>, n: nat)
    ensures |MostCommon(c, n)| <= n
    ensures forall w :: w in MostCommon(c, n) ==> w in c
    ensures forall i, j :: 0 <= i < j < |MostCommon(c, n)| ==> MostCommon(c, n)[i] != MostCommon(c, n)[j]
    ensures SortedDesc(MostCommon(c, n), w => multiset(c)[w] as real)
    ensures forall i, w :: 0 <= i < |MostCommon(c, n)| && w in c && w !in MostCommon(c, n) ==>
              multiset(c)[MostCommon(c, n)[i]] >= multiset(c)[w]
    ensures |Distinct(c)| <= n ==> forall w :: w in c ==> w in MostCommon(c, n)
  {
    MostCommonMembers(c, n);
    MostCommonRanked(c, n);
  }

  /** At most `n` distinct words of `c`, and all of them when `c` has no more than `n`. */
  lemma MostCommonMembers(c: seq<string>, n: nat)
    ensures |MostCommon(c, n)| <= n
    ensures forall w :: w in MostCommon(c, n) ==> w in c
    ensures forall i, j :: 0 <= i < j < |MostCommon(c, n)| ==> MostCommon(c, n)[i] != MostCommon(c, n)[j]
    ensures |Distinct(c)| <= n ==> forall w :: w in c ==> w in MostCommon(c, n)
  {
    var key := (w: string) => multiset(c)[w] as real;
    var d := Distinct(c);
    var sorted := SortDesc(d, key);
    SortDescElements(d, key);
    var r := MostCommon(c, n);
    assert r == sorted[..|r|];
    forall w | w in r ensures w in c {
      assert w in multiset(sorted);
    }
    forall i, j | 0 <= i < j < |r| ensures r[i] != r[j] {
      DistinctSorted(d, key, i, j);
    }
    if |d| <= n {
      assert r == sorted;
      forall w | w in c ensures w in r {
        assert w in multiset(d);
      }
    }
  }

  /** The words come by descending count, and no word left out is more frequent than any
      word kept. */
  lemma MostCommonRanked(c: seq<string>, n: nat)
    ensures SortedDesc(MostCommon(c, n), w => multiset(c)[w] as real)
    ensures forall i, w :: 0 <= i < |MostCommon(c, n)| && w in c && w !in MostCommon(c, n) ==>
              multiset(c)[MostCommon(c, n)[i]] >= multiset(c)[w]
  {
    var key := (w: string) => multiset(c)[w] as real;
    var d := Distinct(c);
    var sorted := SortDesc(d, key);
    SortDescSorted(d, key);
    SortDescElements(d, key);
    var r := MostCommon(c, n);
    assert r == sorted[..|r|];
    TakeSorted(sorted, |r|, key);
    TopKeysDominate(sorted, |r|, key);
    forall i, w | 0 <= i < |r| && w in c && w !in r ensures multiset(c)[r[i]] >= multiset(c)[w] {
      assert w in multiset(d);
      assert w in multiset(sorted);
      var m :| 0 <= m < |sorted| && sorted[m] == w;
      assert m >= |r|;
      assert key(sorted[i]) >= key(sorted[m]);
    }
  }

  lemma DistinctSorted(d: seq<string>, key: string -> real, i: int, j: int)
    requires forall p, q :: 0 <= p < q < |d| ==> d[p] != d[q]
    requires 0 <= i < j < |SortDesc(d, key)|
    ensures SortDesc(d, key)[i] != SortDesc(d, key)[j]
  {
    SortDescCorrect(d, key);
    var s := SortDesc(d, key);
    DistinctCountOne(d, s[i]);
    CountOneApart(s, i, j);
  }

  lemma CountOneApart(s: seq<string>, i: int, j: int)
    requires 0 <= i < j < |s|
    requires multiset(s)[s[i]] <= 1
    ensures s[i] != s[j]
  {
    var x := s[i];
    assert s == s[..j] + s[j..];
    assert multiset(s)[x] == multiset(s[..j])[x] + multiset(s[j..])[x];
    assert s[..j][i] == x;
    assert x in multiset(s[..j]);
    assert s[j..][0] == s[j];
    assert s[j] in multiset(s[j..]);
  }

  lemma {:induction false} DistinctCountOne(d: seq<string>, x: string)
    requires forall p, q :: 0 <= p < q < |d| ==> d[p] != d[q]
    ensures multiset(d)[x] <= 1
  {
    if d != [] {
      DistinctCountOne(d[1..], x);
      assert d == [d[0]] + d[1..];
      if d[0] == x {
        assert x !in d[1..];
      }
    }
  }

  /** The keywords: at most fifteen distinct words of the question, in descending order
      of frequency among the candidates, none of them a stop-word unless every word is
      one (then they come from the first five words); there are none exactly when the
      question has no words. */
  lemma KeywordsFacts(question: string)
    ensures |Keywords(question)| <= MaxKeywords
    ensures forall i, j :: 0 <= i < j < |Keywords(question)| ==> Keywords(question)[i] != Keywords(question)[j]
    ensures forall w :: w in Keywords(question) ==> w in Words(question) && LowerWord(w)
    ensures Keywords(question) == [] <==> Words(question) == []
    ensures (exists w :: w in Words(question) && w !in StopWords) ==>
              forall w :: w in Keywords(question) ==> w !in StopWords
    ensures (forall w :: w in Words(question) ==> w in StopWords) ==>
              forall w :: w in Keywords(question) ==> w in Take(Words(question), FallbackWords)
    ensures forall i, w ::
              (0 <= i < |Keywords(question)| && w in Candidates(Words(question)) && w !in Keywords(question)) ==>
              multiset(Candidates(Words(question)))[Keywords(question)[i]]
              >= multiset(Candidates(Words(question)))[w]
  {
    var words := Words(question);
    var c := Candidates(words);
    WordsAreLowerWords(question);
    CandidatesOfWords(words);
    if c != [] {
      MostCommonMembers(c, MaxKeywords);
      MostCommonRanked(c, MaxKeywords);
      MostCommonNonEmpty(c, MaxKeywords);
    }
  }

  /** The candidates are words of the question, non-stop-words unless every word is one,
      and there are some exactly when there are words. */
  lemma CandidatesOfWords(words: seq<string>)
    ensures forall w :: w in Candidates(words) ==> w in words
    ensures Candidates(words) == [] <==> words == []
    ensures (exists w :: w in words && w !in StopWords) ==> forall w :: w in Candidates(words) ==> w !in StopWords
    ensures (forall w :: w in words ==> w in StopWords) ==>
              forall w :: w in Candidates(words) ==> w in Take(words, FallbackWords)
  {
    assert forall w :: w in Take(words, FallbackWords) ==> w in words;
    if words != [] {
      assert words[0] in NonStop(words) || words[0] in Take(words, FallbackWords);
    }
  }

  lemma MostCommonNonEmpty(c: seq<string>, n: nat)
    requires c != [] && n > 0
    ensures MostCommon(c, n) != []
  {
    var key := (w: string) => multiset(c)[w] as real;
    SortDescElements(Distinct(c), key);
    assert c[0] in Distinct(c);
    assert c[0] in multiset(SortDesc(Distinct(c), key));
  }

  // ---------------------------------------------------------------------------
  // Scoring and ranking
  // ---------------------------------------------------------------------------

  /** An item's transcript, caption and title, lower-cased and joined with single spaces. */
  function Searchable(item: ContentItem): string
  {
    Lower(Text(item.transcript)) + " " + Lower(Text(item.caption)) + " " + Lower(Text(item.title))
  }

  /** The sum of the keywords' non-overlapping occurrence counts in `text`. */
  function Score(text: string, keywords: seq<string>): nat
  {
    if keywords == [] then 0
    else Score(text, keywords[..|keywords| - 1]) + Count(text, keywords[|keywords| - 1])
  }

  /** An item scores when at least one keyword occurs in its text. */
  lemma {:induction false} ScorePositiveIff(text: string, keywords: seq<string>)
    requires forall k :: 0 <= k < |keywords| ==> |keywords[k]| > 0
    ensures Score(text, keywords) > 0 <==> exists k :: 0 <= k < |keywords| && Contains(text, keywords[k])
  {
    if keywords != [] {
      var n := |keywords| - 1;
      ScorePositiveIff(text, keywords[..n]);
      CountPositiveIffContains(text, keywords[n]);
      assert forall k :: 0 <= k < n ==> keywords[..n][k] == keywords[k];
    }
  }

  /** The scoring loop of one item: keywords that occur add their counts. */
  method ItemScore(text: string, keywords: seq<string>) returns (score: nat)
    ensures score == Score(text, keywords)
  {
    score := 0;
    var k := 0;
    while k < |keywords|
      invariant 0 <= k <= |keywords|
      invariant score == Score(text, keywords[..k])
    {
      var count := Count(text, keywords[k]);
      if count > 0 {
        score := score + count;
      }
      assert keywords[..k + 1][..k] == keywords[..k];
      k := k + 1;
    }
    assert keywords[..k] == keywords;
  }

  /** A scored item: `(item, score, platform)`. */
  datatype Hit = Hit(item: ContentItem, score: nat, platform: Option<Platform>)

  function HitScore(h: Hit): real
  {
    h.score as real
  }

  function HitId(h: Hit): int
  {
    h.item.id
  }

  /** `scored.sort(key=lambda x: x[1], reverse=True); scored[:n]` */
  function Rank(scored: seq<Hit>, n: nat): seq<Hit>
  {
    Take(SortDesc(scored, HitScore), n)
  }

  lemma RankFacts(scored: seq<Hit>, n: nat)
    ensures |Rank(scored, n)| <= n
    ensures SortedDesc(Rank(scored, n), HitScore)
    ensures forall h :: h in Rank(scored, n) ==> h in scored
    ensures |scored| <= n ==> forall g :: g in scored ==> g in Rank(scored, n)
  {
    var sorted := SortDesc(scored, HitScore);
    var r := Rank(scored, n);
    SortDescCorrect(scored, HitScore);
    assert r == sorted[..|r|];
    TakeSorted(sorted, |r|, HitScore);
    forall h | h in r ensures h in scored {
      assert h in multiset(sorted);
    }
    if |scored| <= n {
      assert r == sorted;
      forall g | g in scored ensures g in r {
        assert g in multiset(sorted);
      }
    }
  }

  /** No hit left out scores more than a hit kept. */
  lemma RankDominates(scored: seq<Hit>, n: nat)
    ensures forall h, g :: h in Rank(scored, n) && g in scored && g !in Rank(scored, n) ==> h.score >= g.score
  {
    var sorted := SortDesc(scored, HitScore);
    var r := Rank(scored, n);
    SortDescCorrect(scored, HitScore);
    assert r == sorted[..|r|];
    TopKeysDominate(sorted, |r|, HitScore);
    forall h, g | h in r && g in scored && g !in r ensures h.score >= g.score {
      assert g in multiset(sorted);
      var m :| 0 <= m < |sorted| && sorted[m] == g;
      var i :| 0 <= i < |r| && r[i] == h;
      assert HitScore(sorted[i]) >= HitScore(sorted[m]);
    }
  }

  lemma RankDistinct(scored: seq<Hit>, n: nat)
    requires DistinctTags(scored, HitId)
    ensures DistinctTags(Rank(scored, n), HitId)
  {
    SortDescKeepsDistinct(scored, HitScore, HitId);
  }

  /** The items with a positive score, in the order of `items`. */
  function Scored(items: seq<ContentItem>, keywords: seq<string>, platforms: map<int, Platform>): (r: seq<Hit>)
    ensures |r| <= |items|
    ensures forall h :: h in r ==>
              (h.item in items && h.score == Score(Searchable(h.item), keywords) > 0
               && h.platform == PlatformOf(h.item, platforms))
    ensures forall x :: (x in items && Score(Searchable(x), keywords) > 0) ==>
              Hit(x, Score(Searchable(x), keywords), PlatformOf(x, platforms)) in r
  {
    if items == [] then []
    else
      var last := items[|items| - 1];
      var score := Score(Searchable(last), keywords);
      assert forall x :: x in items ==> x in items[..|items| - 1] || x == last;
      Scored(items[..|items| - 1], keywords, platforms)
      + (if score > 0 then [Hit(last, score, PlatformOf(last, platforms))] else [])
  }

  lemma ScoredSnoc(items: seq<ContentItem>, x: ContentItem, keywords: seq<string>, platforms: map<int, Platform>)
    ensures Scored(items + [x], keywords, platforms)
         == Scored(items, keywords, platforms)
            + (if Score(Searchable(x), keywords) > 0 then [Hit(x, Score(Searchable(x), keywords), PlatformOf(x, platforms))] else [])
  {
    assert (items + [x])[..|items|] == items;
  }

  lemma {:induction false} ScoredDistinct(items: seq<ContentItem>, keywords: seq<string>, platforms: map<int, Platform>)
    requires DistinctIds(items)
    ensures DistinctTags(Scored(items, keywords, platforms), HitId)
  {
    if items != [] {
      var init := items[..|items| - 1];
      ScoredDistinct(init, keywords, platforms);
      var rest := Scored(init, keywords, platforms);
      forall k | 0 <= k < |rest| ensures rest[k].item.id != items[|items| - 1].id {
        assert rest[k] in rest;
        var m :| 0 <= m < |init| && init[m] == rest[k].item;
      }
    }
  }

  /** The result of `_keyword_search(question, platform_ids, db, max_results)`. */
  function TopHits(question: string, table: seq<ContentItem>, platformIds: seq<int>,
                   platforms: map<int, Platform>, maxResults: nat): seq<Hit>
  {
    var keywords := Keywords(question);
    if keywords == [] then []
    else Rank(Scored(OfPlatforms(table, platformIds), keywords, platforms), maxResults)
  }

  /** The hits: at most `maxResults` of them, by non-increasing score, each an item of the
      creator's platforms with its positive score and its platform. */
  lemma TopHitsFacts(question: string, table: seq<ContentItem>, platformIds: seq<int>,
                     platforms: map<int, Platform>, maxResults: nat)
    ensures |TopHits(question, table, platformIds, platforms, maxResults)| <= maxResults
    ensures SortedDesc(TopHits(question, table, platformIds, platforms, maxResults), HitScore)
    ensures forall h :: h in TopHits(question, table, platformIds, platforms, maxResults) ==>
              (h.item in table && h.item.platformId in platformIds
               && h.score == Score(Searchable(h.item), Keywords(question)) > 0
               && h.platform == PlatformOf(h.item, platforms))
    ensures DistinctIds(table) ==> DistinctTags(TopHits(question, table, platformIds, platforms, maxResults), HitId)
  {
    var keywords := Keywords(question);
    if keywords != [] {
      var items := OfPlatforms(table, platformIds);
      var scored := Scored(items, keywords, platforms);
      RankFacts(scored, maxResults);
      if DistinctIds(table) {
        OfPlatformsDistinct(table, platformIds);
        ScoredDistinct(items, keywords, platforms);
        RankDistinct(scored, maxResults);
      }
    }
  }

  /** No scoring item left out scores more than an item kept, and every scoring item is
      kept when there are at most `maxResults` of them. */
  lemma TopHitsAreBest(question: string, table: seq<ContentItem>, platformIds: seq<int>,
                       platforms: map<int, Platform>, maxResults: nat, x: ContentItem)
    requires x in table && x.platformId in platformIds && Score(Searchable(x), Keywords(question)) > 0
    ensures var r := TopHits(question, table, platformIds, platforms, maxResults);
      (forall g :: g in r ==> g.item != x) ==> forall h :: h in r ==> h.score >= Score(Searchable(x), Keywords(question))
    ensures |Scored(OfPlatforms(table, platformIds), Keywords(question), platforms)| <= maxResults ==>
      exists h :: h in TopHits(question, table, platformIds, platforms, maxResults) && h.item == x
  {
    var keywords := Keywords(question);
    var items := OfPlatforms(table, platformIds);
    var scored := Scored(items, keywords, platforms);
    var hx := Hit(x, Score(Searchable(x), keywords), PlatformOf(x, platforms));
    assert hx in scored;
    RankDominates(scored, maxResults);
    RankFacts(scored, maxResults);
  }

  /** The scoring loop over the creator's items: items with a positive score are kept
      with their score and platform, in order. */
  method ScoreItems(items: seq<ContentItem>, keywords: seq<string>, platforms: map<int, Platform>)
    returns (scored: seq<Hit>)
    ensures scored == Scored(items, keywords, platforms)
  {
    scored := [];
    var n := 0;
    while n < |items|
      invariant 0 <= n <= |items|
      invariant scored == Scored(items[..n], keywords, platforms)
    {
      var item := items[n];
      var score := ItemScore(Searchable(item), keywords);
      ScoredSnoc(items[..n], item, keywords, platforms);
      assert items[..n + 1] == items[..n] + [item];
      if score > 0 {
        scored := scored + [Hit(item, score, PlatformOf(item, platforms))];
      }
      n := n + 1;
    }
    assert items[..n] == items;
  }

  /** `_keyword_search`: keywords, the scoring loop over the creator's items, then the
      stable sort by score and the cut to `maxResults`. */
  method Search(question: string, table: seq<ContentItem>, platformIds: seq<int>,
                platforms: map<int, Platform>, maxResults: nat) returns (hits: seq<Hit>)
    ensures hits == TopHits(question, table, platformIds, platforms, maxResults)
  {
    var keywords := Keywords(question);
    if keywords == [] {
      return [];
    }
    var scored := ScoreItems(OfPlatforms(table, platformIds), keywords, platforms);
    hits := Rank(scored, maxResults);
  }
}
