/** Re-ranking of retrieved items by a composite score (orchestrator.py:3847-3895). */
module Rerank {
  import opened Basics

  datatype Item = Item(
    cosine: real, language: string, content: string,
    userId: string, sessionId: string, documentId: string,
    upsertedAt: Option<real>, rejected: bool)

  /** The query side. `terms` are its significant words, `decay` is `0.5 ** (days / 7)`. */
  datatype Query = Query(
    language: string, terms: set<string>, userId: string, sessionId: string, now: real, decay: real -> real)

  datatype Scored = Scored(score: real, index: nat, item: Item)

  predicate Contains(text: string, part: string) {
    exists i | 0 <= i <= |text| :: part <= text[i..]
  }

  function LanguageBonus(q: Query, x: Item): real {
    if q.language != "" && x.language == q.language then 0.10 else 0.0
  }

  function TermBonus(q: Query, x: Item): real {
    if exists t | t in q.terms :: Contains(x.content, t) then 0.06 else 0.0
  }

  function ScopeBonus(q: Query, x: Item): real {
    if q.userId != "" && x.userId == q.userId then 0.12
    else if q.sessionId != "" && (x.sessionId == q.sessionId || Contains(x.documentId, q.sessionId)) then 0.08
    else 0.0
  }

  function RecencyBonus(q: Query, x: Item): real {
    if x.upsertedAt.Some? && x.upsertedAt.value != 0.0
    then 0.08 * q.decay((q.now - x.upsertedAt.value) / 86400.0)
    else 0.0
  }

  function Penalty(x: Item): real {
    if x.rejected then 0.10 else 0.0
  }

  function Score(q: Query, x: Item): real {
    x.cosine + LanguageBonus(q, x) + TermBonus(q, x) + ScopeBonus(q, x) + RecencyBonus(q, x) - Penalty(x)
  }

  function Scores(q: Query, items: seq<Item>): seq<Scored> {
    seq(|items|, i requires 0 <= i < |items| => Scored(Score(q, items[i]), i, items[i]))
  }

  // ---------------------------------------------------------------- stable descending sort

  /** The order a stable descending sort puts entries in. */
  predicate Before(a: Scored, b: Scored) {
    a.score > b.score || (a.score == b.score && a.index < b.index)
  }

  /** Insert behind every entry with at least this score. */
  function Insert(sorted: seq<Scored>, x: Scored): seq<Scored> {
    if sorted == [] then [x]
    else if sorted[|sorted| - 1].score >= x.score then sorted + [x]
    else Insert(sorted[..|sorted| - 1], x) + [sorted[|sorted| - 1]]
  }

  function Sort(scored: seq<Scored>): seq<Scored> {
    if scored == [] then [] else Insert(Sort(scored[..|scored| - 1]), scored[|scored| - 1])
  }

  predicate Ordered(s: seq<Scored>) {
    forall i, j | 0 <= i < j < |s| :: Before(s[i], s[j])
  }

  lemma {:induction false} InsertMultiset(s: seq<Scored>, x: Scored)
    ensures multiset(Insert(s, x)) == multiset(s) + multiset{x}
  {
    if s != [] && s[|s| - 1].score < x.score {
      InsertMultiset(s[..|s| - 1], x);
      assert s == s[..|s| - 1] + [s[|s| - 1]];
    }
  }

  lemma {:induction false} SortMultiset(s: seq<Scored>)
    ensures multiset(Sort(s)) == multiset(s)
  {
    hide Insert;
    if s != [] {
      SortMultiset(s[..|s| - 1]);
      InsertMultiset(Sort(s[..|s| - 1]), s[|s| - 1]);
      assert s == s[..|s| - 1] + [s[|s| - 1]];
    }
  }

  lemma {:induction false} InsertOrdered(s: seq<Scored>, x: Scored)
    requires Ordered(s) && forall e | e in s :: e.index < x.index
    ensures Ordered(Insert(s, x))
  {
    if s != [] && s[|s| - 1].score < x.score {
      var init, last := s[..|s| - 1], s[|s| - 1];
      InsertOrdered(init, x);
      InsertMultiset(init, x);
      var r := Insert(init, x);
      forall i | 0 <= i < |r| ensures Before(r[i], last) {
        assert r[i] in multiset(r);
        if r[i] != x {
          assert r[i] in init;
        }
      }
    }
  }

  lemma {:induction false} SortOrdered(s: seq<Scored>)
    requires forall i, j | 0 <= i < j < |s| :: s[i].index < s[j].index
    ensures Ordered(Sort(s))
  {
    if s != [] {
      var init, last := s[..|s| - 1], s[|s| - 1];
      SortOrdered(init);
      SortMultiset(init);
      forall e | e in Sort(init) ensures e.index < last.index {
        assert e in multiset(Sort(init));
        assert e in init;
      }
      InsertOrdered(Sort(init), last);
    }
  }

  // ---------------------------------------------------------------- the method

  function Ranked(q: Query, items: seq<Item>): seq<Scored> {
    Sort(Scores(q, items))
  }

  method RetrievalRerank(q: Query, items: seq<Item>) returns (ranked: seq<Item>)
    ensures |ranked| == |Ranked(q, items)|
    ensures forall k | 0 <= k < |ranked| :: ranked[k] == Ranked(q, items)[k].item
  {
    var scored: seq<Scored> := [];
    for i := 0 to |items|
      invariant scored == Scores(q, items)[..i]
    {
      var item := items[i];
      var final := item.cosine;
      if q.language != "" && item.language == q.language { final := final + 0.10; }
      if exists t | t in q.terms :: Contains(item.content, t) { final := final + 0.06; }
      if q.userId != "" && item.userId == q.userId {
        final := final + 0.12;
      } else if q.sessionId != "" && (item.sessionId == q.sessionId || Contains(item.documentId, q.sessionId)) {
        final := final + 0.08;
      }
      if item.upsertedAt.Some? && item.upsertedAt.value != 0.0 {
        var ageDays := (q.now - item.upsertedAt.value) / 86400.0;
        final := final + 0.08 * q.decay(ageDays);
      }
      if item.rejected { final := final - 0.10; }
      scored := scored + [Scored(final, i, item)];
    }
    assert scored == Scores(q, items);
    var sorted := Sort(scored);
    ranked := [];
    for k := 0 to |sorted|
      invariant |ranked| == k && forall n | 0 <= n < k :: ranked[n] == sorted[n].item
    {
      ranked := ranked + [sorted[k].item];
    }
  }

  // ---------------------------------------------------------------- main results

  /** The result is a permutation of the input, in descending order of the composite score,
      and items of equal score keep their order. */
  lemma RankedIsStablePermutation(q: Query, items: seq<Item>)
    ensures multiset(Ranked(q, items)) == multiset(Scores(q, items)) && |Ranked(q, items)| == |items|
    ensures Ordered(Ranked(q, items))
  {
    SortMultiset(Scores(q, items));
    SortOrdered(Scores(q, items));
    assert |multiset(Ranked(q, items))| == |multiset(Scores(q, items))|;
  }

  /** The recency factor is in (0, 1] for ages that are not negative. */
  ghost predicate GoodDecay(q: Query) {
    forall days: real | days >= 0.0 :: 0.0 < q.decay(days) <= 1.0
  }

  predicate NotFromTheFuture(q: Query, x: Item) {
    x.upsertedAt.Some? ==> x.upsertedAt.value <= q.now
  }

  /** All bonuses together are worth at most 0.36, and the penalty 0.10. */
  lemma ScoreNearCosine(q: Query, x: Item)
    requires GoodDecay(q) && NotFromTheFuture(q, x)
    ensures x.cosine - 0.10 <= Score(q, x) <= x.cosine + 0.36
  {
    hide Contains;
    if x.upsertedAt.Some? {
      var days := (q.now - x.upsertedAt.value) / 86400.0;
      assert days >= 0.0 && 0.0 < q.decay(days) <= 1.0;
    }
  }

  lemma ScoredAt(q: Query, items: seq<Item>, e: Scored)
    requires e in Ranked(q, items)
    ensures e.index < |items| && e.item == items[e.index] && e.score == Score(q, e.item)
  {
    hide Score, Sort;
    SortMultiset(Scores(q, items));
    assert e in multiset(Ranked(q, items));
    assert e in Scores(q, items);
  }

  /** Bonuses cannot overturn a clear match: an item whose cosine exceeds another's by more
      than 0.46 comes first, and by exactly 0.46 if it came first in the input. */
  lemma ClearMatchWins(q: Query, items: seq<Item>, m: nat, n: nat)
    requires GoodDecay(q) && forall x | x in items :: NotFromTheFuture(q, x)
    requires m < |items| && n < |items|
    requires items[m].cosine - items[n].cosine > 0.46 || (items[m].cosine - items[n].cosine == 0.46 && m < n)
    ensures forall i, j | 0 <= i < |Ranked(q, items)| && 0 <= j < |Ranked(q, items)|
              && Ranked(q, items)[i].index == m && Ranked(q, items)[j].index == n :: i < j
  {
    hide Score, Sort, Scores, NotFromTheFuture;
    var r := Ranked(q, items);
    RankedIsStablePermutation(q, items);
    ScoreNearCosine(q, items[m]);
    ScoreNearCosine(q, items[n]);
    forall i, j | 0 <= i < |r| && 0 <= j < |r| && r[i].index == m && r[j].index == n ensures i < j {
      ScoredAt(q, items, r[i]);
      ScoredAt(q, items, r[j]);
      assert j < i ==> Before(r[j], r[i]);
    }
  }

  /** What two items may differ in. */
  datatype Feature = InLanguage | HasTerm | OfUser | OfSession | Recent(at: real) | NotRejected

  /** What it is worth in cosine. */
  function Worth(q: Query, f: Feature): real {
    match f
    case InLanguage => 0.10
    case HasTerm => 0.06
    case OfUser => 0.12
    case OfSession => 0.08
    case Recent(at) => 0.08 * q.decay((q.now - at) / 86400.0)
    case NotRejected => 0.10
  }

  predicate MatchesUser(q: Query, x: Item) {
    q.userId != "" && x.userId == q.userId
  }

  predicate MatchesSession(q: Query, x: Item) {
    q.sessionId != "" && (x.sessionId == q.sessionId || Contains(x.documentId, q.sessionId))
  }

  predicate MatchesTerm(q: Query, x: Item) {
    exists t | t in q.terms :: Contains(x.content, t)
  }

  lemma ContainsExactly(text: string, part: string)
    ensures Contains(text, part) <==> exists before, after :: text == before + (part + after)
  {
    if Contains(text, part) {
      var i :| 0 <= i <= |text| && part <= text[i..];
      assert text == text[..i] + (part + text[i..][|part|..]);
    }
    if before, after :| text == before + (part + after) {
      assert text[|before|..] == part + after;
    }
  }

  /** `x` has the feature, `y` does not, and but for their cosines they are alike. */
  predicate Ahead(q: Query, f: Feature, x: Item, y: Item) {
    match f
    case InLanguage =>
      x == y.(cosine := x.cosine, language := q.language) && q.language != "" && y.language != q.language
    case HasTerm =>
      x == y.(cosine := x.cosine, content := x.content) && MatchesTerm(q, x) && !MatchesTerm(q, y)
    case OfUser =>
      x == y.(cosine := x.cosine, userId := q.userId)
      && MatchesUser(q, x) && !MatchesUser(q, y) && !MatchesSession(q, y)
    case OfSession =>
      && x == y.(cosine := x.cosine, sessionId := x.sessionId, documentId := x.documentId)
      && !MatchesUser(q, x) && MatchesSession(q, x) && !MatchesSession(q, y)
    case Recent(at) =>
      && x == y.(cosine := x.cosine, upsertedAt := Some(at)) && at != 0.0
      && (y.upsertedAt.None? || y.upsertedAt == Some(0.0))
    case NotRejected =>
      x == y.(cosine := x.cosine, rejected := false) && y.rejected
  }

  lemma WorthIsScore(q: Query, f: Feature, x: Item, y: Item)
    requires Ahead(q, f, x, y)
    ensures Score(q, x) - Score(q, y) == x.cosine - y.cosine + Worth(q, f)
  {
    hide Contains;
  }

  /** Of two items that differ in one feature, the one that has it stands first exactly while
      the other's cosine is ahead by less than the feature is worth, or by just that much and
      it comes later in the input. */
  lemma FeatureDecidesExactly(q: Query, items: seq<Item>, f: Feature, m: nat, n: nat)
    requires m < |items| && n < |items| && m != n && Ahead(q, f, items[m], items[n])
    ensures forall i, j | 0 <= i < |Ranked(q, items)| && 0 <= j < |Ranked(q, items)|
              && Ranked(q, items)[i].index == m && Ranked(q, items)[j].index == n ::
              i < j <==> items[n].cosine - items[m].cosine < Worth(q, f)
                         || (items[n].cosine - items[m].cosine == Worth(q, f) && m < n)
  {
    hide Score, Sort, Scores, Ahead, Worth;
    var r := Ranked(q, items);
    RankedIsStablePermutation(q, items);
    WorthIsScore(q, f, items[m], items[n]);
    forall i, j | 0 <= i < |r| && 0 <= j < |r| && r[i].index == m && r[j].index == n
      ensures i < j <==> Before(r[i], r[j])
      ensures r[i].score == Score(q, items[m]) && r[j].score == Score(q, items[n])
    {
      ScoredAt(q, items, r[i]);
      ScoredAt(q, items, r[j]);
      assert i < j ==> Before(r[i], r[j]);
      assert j < i ==> Before(r[j], r[i]);
    }
  }

  /** The margin is sharp: for every smaller one there are two items, the first with every
      bonus and the second rejected, where the one with the lower cosine comes first. */
  lemma MarginIsSharp(d: real) returns (q: Query, items: seq<Item>)
    requires 0.0 <= d < 0.46
    ensures GoodDecay(q) && |items| == 2 && (forall x | x in items :: NotFromTheFuture(q, x))
    ensures items[1].cosine - items[0].cosine == d
    ensures |Ranked(q, items)| == 2 && Ranked(q, items)[0].index == 0 && Ranked(q, items)[1].index == 1
  {
    q := Query("de", {"x"}, "u", "", 1.0, days => 1.0);
    var low := Item(0.0, "de", "x", "u", "", "", Some(1.0), false);
    var high := Item(d, "", "", "", "", "", None, true);
    assert "x" <= low.content[0..];
    assert Contains(low.content, "x");
    assert !Contains(high.content, "x");
    items := [low, high];
    assert Score(q, low) > Score(q, high);
    TwoRanked(q, items);
  }

  lemma TwoRanked(q: Query, items: seq<Item>)
    requires |items| == 2 && Score(q, items[0]) > Score(q, items[1])
    ensures |Ranked(q, items)| == 2 && Ranked(q, items)[0].index == 0 && Ranked(q, items)[1].index == 1
  {
    hide Score, Sort;
    var r, scores := Ranked(q, items), Scores(q, items);
    RankedIsStablePermutation(q, items);
    ScoredAt(q, items, r[0]);
    ScoredAt(q, items, r[1]);
    assert r == [r[0], r[1]] && scores == [scores[0], scores[1]];
    assert scores[0] in multiset(r) && scores[1] in multiset(r);
    assert Before(r[0], r[1]);
  }
}
