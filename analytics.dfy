/**
 * The analytics tab of the journaling component: the time-window filter, the
 * trend classifier and the statistics over the filtered history
 * (getFilteredHistory, calculateTrend and calculateStats in
 * src/journaling_app.tsx).
 *
 * Timestamps are integers (milliseconds). Where the source divides in
 * floating point, the model uses exact arithmetic: averages are rounded half
 * up to tenths on the exact quotient, and the trend margin of 0.2 is compared
 * on exact fractions.
 */
module Analytics {
  import opened Wrappers
  import opened Journal

  /** The category keys of the `stats` object, in the order `Object.keys` lists them. */
  const CATEGORY_KEYS: seq<string> := ["relationship", "money", "health", "education", "job"]

  /** The keys `sentimentCounts` starts with, in order; other sentiments are appended when first seen. */
  const SENTIMENT_KEYS: seq<string> := ["positive", "neutral", "negative"]

  const INITIAL_COUNTS: seq<(string, nat)> := [("positive", 0), ("neutral", 0), ("negative", 0)]

  const MS_PER_DAY: int := 24 * 60 * 60 * 1000

  /** Fewer filtered entries than this and there are no statistics. */
  const MIN_STATS_ENTRIES: nat := 5

  /** Fewer entries than this and the trend is stable. */
  const MIN_TREND_ENTRIES: nat := 4

  // ---------------------------------------------------------------------------
  // The time window

  /** How many days back a timeframe other than "all" reaches; an unknown one reaches a week. */
  function DaysBack(timeframe: string): (d: nat)
    ensures d == 7 || d == 30
    ensures d == 30 <==> timeframe == "month"
  {
    if timeframe == "week" then 7 else if timeframe == "month" then 30 else 7
  }

  /** The entries stamped at or after `cutoff`, in their original order. */
  function Window(history: seq<JournalEntry>, cutoff: int): (r: seq<JournalEntry>)
    ensures |r| <= |history|
    ensures forall e :: multiset(r)[e] == if e.fullDate >= cutoff then multiset(history)[e] else 0
  {
    if history == [] then []
    else
      var rest := Window(history[1..], cutoff);
      assert history == [history[0]] + history[1..];
      if history[0].fullDate >= cutoff then [history[0]] + rest else rest
  }

  /** The window of a single entry is that entry when it is recent enough, and empty otherwise. */
  lemma WindowSingle(e: JournalEntry, cutoff: int)
    ensures Window([e], cutoff) == if e.fullDate >= cutoff then [e] else []
  {
    assert [e][1..] == [];
  }

  /**
   * The filter works entry by entry and keeps the order: the window of a
   * concatenation is the concatenation of the windows.
   */
  lemma {:induction false} WindowAppend(a: seq<JournalEntry>, b: seq<JournalEntry>, cutoff: int)
    ensures Window(a + b, cutoff) == Window(a, cutoff) + Window(b, cutoff)
  {
    if a == [] {
      assert a + b == b;
    } else {
      assert (a + b)[0] == a[0];
      assert (a + b)[1..] == a[1..] + b;
      WindowAppend(a[1..], b, cutoff);
    }
  }

  /**
   * getFilteredHistory: the whole history for "all"; otherwise exactly the
   * entries no older than `DaysBack(timeframe)` days before `now`.
   */
  function FilteredHistory(history: seq<JournalEntry>, timeframe: string, now: int): (r: seq<JournalEntry>)
    ensures timeframe == "all" ==> r == history
    ensures timeframe != "all" ==> r == Window(history, now - DaysBack(timeframe) * MS_PER_DAY)
    ensures timeframe != "all" ==>
      forall e :: multiset(r)[e] ==
        if e.fullDate >= now - DaysBack(timeframe) * MS_PER_DAY then multiset(history)[e] else 0
    ensures timeframe != "all" ==>
      forall e :: e in r <==> e in history && e.fullDate >= now - DaysBack(timeframe) * MS_PER_DAY
  {
    if timeframe == "all" then history
    else
      var r := Window(history, now - DaysBack(timeframe) * MS_PER_DAY);
      assert forall e :: e in r <==> multiset(r)[e] > 0;
      assert forall e :: e in history <==> multiset(history)[e] > 0;
      r
  }

  // ---------------------------------------------------------------------------
  // Counting

  predicate HasSentiment(e: JournalEntry, key: string) {
    e.analysis.Some? && e.analysis.value.sentiment == key
  }

  /** How many entries of `s` carry an analysis with sentiment `key`. */
  function SentimentCount(s: seq<JournalEntry>, key: string): (n: nat)
    ensures n <= AnalysedCount(s)
  {
    if s == [] then 0
    else SentimentCount(s[..|s| - 1], key) + (if HasSentiment(s[|s| - 1], key) then 1 else 0)
  }

  /** How many entries of `s` carry an analysis at all. */
  function AnalysedCount(s: seq<JournalEntry>): (n: nat)
    ensures n <= |s|
    ensures n == |s| <==> forall i :: 0 <= i < |s| ==> s[i].analysis.Some?
  {
    if s == [] then 0
    else AnalysedCount(s[..|s| - 1]) + (if s[|s| - 1].analysis.Some? then 1 else 0)
  }

  // ---------------------------------------------------------------------------
  // The trend

  datatype Trend = Improving | Declining | Stable

  /** `Math.ceil(n / 2)`: the length of the recent half. */
  function Midpoint(n: nat): (h: nat)
    ensures n <= 2 * h <= n + 1
    ensures n >= MIN_TREND_ENTRIES ==> 2 <= h && 2 <= n - h
  {
    (n + 1) / 2
  }

  /** The share of the entries of `s` whose sentiment is "positive". */
  function PositiveFraction(s: seq<JournalEntry>): real
    requires |s| > 0
  {
    SentimentCount(s, "positive") as real / |s| as real
  }

  /** Comparing two fractions with a margin of one fifth by cross-multiplying. */
  lemma FractionMargin(pr: nat, nr: nat, po: nat, no: nat)
    requires nr > 0 && no > 0
    ensures (pr as real / nr as real > po as real / no as real + 0.2) <==> 5 * pr * no > 5 * po * nr + nr * no
    ensures (pr as real / nr as real < po as real / no as real - 0.2) <==> 5 * pr * no < 5 * po * nr - nr * no
  {
    MarginAbove(pr as real, nr as real, po as real, no as real);
    MarginBelow(pr as real, nr as real, po as real, no as real);
    CastTerms(pr, nr, po, no);
  }

  lemma MarginAbove(P: real, R: real, Q: real, O: real)
    requires R > 0.0 && O > 0.0
    ensures (P / R > Q / O + 0.2) <==> 5.0 * P * O > 5.0 * Q * R + R * O
  {
    ScaledTerms(P, R, Q, O);
    ScaleByPositive(5.0 * R * O, P / R, Q / O + 0.2);
  }

  lemma MarginBelow(P: real, R: real, Q: real, O: real)
    requires R > 0.0 && O > 0.0
    ensures (P / R < Q / O - 0.2) <==> 5.0 * P * O < 5.0 * Q * R - R * O
  {
    ScaledTerms(P, R, Q, O);
    ScaleByPositive(5.0 * R * O, Q / O - 0.2, P / R);
  }

  /** Multiplying both shares and the margin by 5 * nr * no clears the denominators. */
  lemma ScaledTerms(P: real, R: real, Q: real, O: real)
    requires R > 0.0 && O > 0.0
    ensures 5.0 * R * O > 0.0
    ensures (5.0 * R * O) * (P / R) == 5.0 * P * O
    ensures (5.0 * R * O) * (Q / O + 0.2) == 5.0 * Q * R + R * O
    ensures (5.0 * R * O) * (Q / O - 0.2) == 5.0 * Q * R - R * O
  {
    var x, y := P / R, Q / O;
    assert x * R == P;
    assert y * O == Q;
    calc {
      (5.0 * R * O) * x;
      5.0 * O * (x * R);
      5.0 * P * O;
    }
    calc {
      (5.0 * R * O) * (y + 0.2);
      5.0 * R * (y * O) + R * O;
      5.0 * Q * R + R * O;
    }
    calc {
      (5.0 * R * O) * (y - 0.2);
      5.0 * R * (y * O) - R * O;
      5.0 * Q * R - R * O;
    }
  }

  lemma CastTerms(pr: nat, nr: nat, po: nat, no: nat)
    ensures (5 * pr * no) as real == 5.0 * pr as real * no as real
    ensures (5 * po * nr) as real == 5.0 * po as real * nr as real
    ensures (nr * no) as real == nr as real * no as real
  {
  }

  lemma ScaleByPositive(k: real, x: real, y: real)
    requires k > 0.0
    ensures x > y <==> k * x > k * y
  {
    assert k * x - k * y == k * (x - y);
    if x > y {
      assert k * (x - y) > 0.0;
    } else {
      assert k * (y - x) >= 0.0;
    }
  }

  /**
   * calculateTrend: with at least four entries, the list is split after its
   * first ceil(n/2) entries (the recent half, since the newest entry comes
   * first); the trend is improving when the recent positive share exceeds
   * the older one by more than 0.2, declining when it falls short of it by
   * more than 0.2, and stable otherwise.
   */
  function CalculateTrend(entries: seq<JournalEntry>): (t: Trend)
    ensures |entries| < MIN_TREND_ENTRIES ==> t == Stable
    ensures t == Improving <==>
      |entries| >= MIN_TREND_ENTRIES &&
      PositiveFraction(entries[..Midpoint(|entries|)]) > PositiveFraction(entries[Midpoint(|entries|)..]) + 0.2
    ensures t == Declining <==>
      |entries| >= MIN_TREND_ENTRIES &&
      PositiveFraction(entries[..Midpoint(|entries|)]) < PositiveFraction(entries[Midpoint(|entries|)..]) - 0.2
  {
    if |entries| < MIN_TREND_ENTRIES then Stable
    else
      var h := Midpoint(|entries|);
      var nr, no := h, |entries| - h;
      var pr, po := SentimentCount(entries[..h], "positive"), SentimentCount(entries[h..], "positive");
      FractionMargin(pr, nr, po, no);
      if 5 * pr * no > 5 * po * nr + nr * no then Improving
      else if 5 * pr * no < 5 * po * nr - nr * no then Declining
      else Stable
  }

  // ---------------------------------------------------------------------------
  // Arg-max with JavaScript's reduce tie rule

  /** Index `i` holds a maximal value and every later value is strictly smaller. */
  predicate LastMaxAt(values: seq<int>, i: int) {
    0 <= i < |values| &&
    (forall j :: 0 <= j < |values| ==> values[j] <= values[i]) &&
    (forall j :: i < j < |values| ==> values[j] < values[i])
  }

  /**
   * `keys.reduce((a, b) => v[a] > v[b] ? a : b)` from position `next` on,
   * with `acc` the index chosen so far.
   */
  function ReduceMaxFrom(values: seq<int>, acc: nat, next: nat): (i: nat)
    requires acc < next <= |values|
    requires forall j :: 0 <= j < next ==> values[j] <= values[acc]
    requires forall j :: acc < j < next ==> values[j] < values[acc]
    ensures LastMaxAt(values, i)
    decreases |values| - next
  {
    if next == |values| then acc
    else ReduceMaxFrom(values, if values[acc] > values[next] then acc else next, next + 1)
  }

  /** The reduce over a non-empty list picks the last of its maximal values. */
  function ReduceMax(values: seq<int>): (i: nat)
    requires |values| > 0
    ensures LastMaxAt(values, i)
  {
    ReduceMaxFrom(values, 0, 1)
  }

  /** Two indices satisfying `LastMaxAt` are the same: the tie rule decides. */
  lemma LastMaxUnique(values: seq<int>, i: int, k: int)
    requires LastMaxAt(values, i) && LastMaxAt(values, k)
    ensures i == k
  {
    assert values[i] == values[k];
  }

  // ---------------------------------------------------------------------------
  // The sentiment tallies: an ordered object of key -> count

  function Keys(counts: seq<(string, nat)>): (ks: seq<string>)
    ensures |ks| == |counts|
    ensures forall i :: 0 <= i < |counts| ==> ks[i] == counts[i].0
  {
    if counts == [] then [] else [counts[0].0] + Keys(counts[1..])
  }

  function Values(pairs: seq<(string, int)>): (vs: seq<int>)
    ensures |vs| == |pairs|
    ensures forall i :: 0 <= i < |pairs| ==> vs[i] == pairs[i].1
  {
    if pairs == [] then [] else [pairs[0].1] + Values(pairs[1..])
  }

  predicate Distinct(ks: seq<string>) {
    forall i, j :: 0 <= i < j < |ks| ==> ks[i] != ks[j]
  }

  /** `counts[key] || 0`: the count of the first pair with that key, 0 when there is none. */
  function Lookup(counts: seq<(string, nat)>, key: string): nat {
    if counts == [] then 0
    else if counts[0].0 == key then counts[0].1
    else Lookup(counts[1..], key)
  }

  /** The sum of all counts. */
  function Total(counts: seq<(string, nat)>): nat {
    if counts == [] then 0 else counts[0].1 + Total(counts[1..])
  }

  /** `counts[key] = (counts[key] || 0) + 1`: an existing key is incremented in place, a new one appended. */
  function Bump(counts: seq<(string, nat)>, key: string): seq<(string, nat)> {
    if counts == [] then [(key, 1)]
    else if counts[0].0 == key then [(key, counts[0].1 + 1)] + counts[1..]
    else [counts[0]] + Bump(counts[1..], key)
  }

  lemma {:induction false} LookupAbsent(counts: seq<(string, nat)>, key: string)
    requires key !in Keys(counts)
    ensures Lookup(counts, key) == 0
  {
    if counts != [] {
      assert Keys(counts)[1..] == Keys(counts[1..]);
      LookupAbsent(counts[1..], key);
    }
  }

  lemma {:induction false} BumpLookup(counts: seq<(string, nat)>, key: string, other: string)
    ensures Lookup(Bump(counts, key), other) == Lookup(counts, other) + (if other == key then 1 else 0)
  {
    if counts != [] && counts[0].0 != key {
      BumpLookup(counts[1..], key, other);
    }
  }

  lemma {:induction false} BumpTotal(counts: seq<(string, nat)>, key: string)
    ensures Total(Bump(counts, key)) == Total(counts) + 1
  {
    if counts != [] && counts[0].0 != key {
      BumpTotal(counts[1..], key);
    }
  }

  lemma {:induction false} BumpKeys(counts: seq<(string, nat)>, key: string)
    ensures Keys(Bump(counts, key)) == if key in Keys(counts) then Keys(counts) else Keys(counts) + [key]
  {
    if counts != [] {
      assert Keys(counts) == [counts[0].0] + Keys(counts[1..]);
      if counts[0].0 != key {
        BumpKeys(counts[1..], key);
      }
    }
  }

  /** The `sentimentCounts` object after the first |s| entries of the loop. */
  function Tally(s: seq<JournalEntry>): seq<(string, nat)> {
    if s == [] then INITIAL_COUNTS
    else
      var c := Tally(s[..|s| - 1]);
      var e := s[|s| - 1];
      if e.analysis.Some? then Bump(c, e.analysis.value.sentiment) else c
  }

  /** Each key's tally is the number of entries with that sentiment. */
  lemma {:induction false} LookupZero(counts: seq<(string, nat)>, key: string)
    requires forall i :: 0 <= i < |counts| ==> counts[i].1 == 0
    ensures Lookup(counts, key) == 0
  {
    if counts != [] {
      LookupZero(counts[1..], key);
    }
  }

  lemma {:induction false} TallyLookup(s: seq<JournalEntry>, key: string)
    ensures Lookup(Tally(s), key) == SentimentCount(s, key)
  {
    if s == [] {
      LookupZero(INITIAL_COUNTS, key);
    } else {
      TallyLookup(s[..|s| - 1], key);
      var e := s[|s| - 1];
      if e.analysis.Some? {
        BumpLookup(Tally(s[..|s| - 1]), e.analysis.value.sentiment, key);
      }
    }
  }

  /** The tallies add up to the number of entries that carry an analysis. */
  lemma {:induction false} TallyTotal(s: seq<JournalEntry>)
    ensures Total(Tally(s)) == AnalysedCount(s)
  {
    if s != [] {
      TallyTotal(s[..|s| - 1]);
      var e := s[|s| - 1];
      if e.analysis.Some? {
        BumpTotal(Tally(s[..|s| - 1]), e.analysis.value.sentiment);
      }
    }
  }

  /**
   * The tally's keys are distinct, start with positive, neutral and negative,
   * and are otherwise exactly the sentiments that occur.
   */
  lemma {:induction false} TallyKeys(s: seq<JournalEntry>)
    ensures |Tally(s)| >= 3 && Keys(Tally(s))[..3] == SENTIMENT_KEYS
    ensures Distinct(Keys(Tally(s)))
    ensures forall k :: k in Keys(Tally(s)) <==> k in SENTIMENT_KEYS || SentimentCount(s, k) > 0
  {
    if s == [] {
      assert Keys(INITIAL_COUNTS) == SENTIMENT_KEYS;
      forall k ensures SentimentCount(s, k) == 0 { }
    } else {
      var p := s[..|s| - 1];
      var e := s[|s| - 1];
      TallyKeys(p);
      var c := Tally(p);
      if e.analysis.Some? {
        var key := e.analysis.value.sentiment;
        BumpKeys(c, key);
        assert Keys(Tally(s))[..3] == Keys(c)[..3];
      }
      forall k ensures k in Keys(Tally(s)) <==> k in SENTIMENT_KEYS || SentimentCount(s, k) > 0 {
        TallyLookup(p, k);
        TallyLookup(s, k);
        if k !in Keys(Tally(s)) {
          LookupAbsent(Tally(s), k);
        }
      }
    }
  }

  // ---------------------------------------------------------------------------
  // Category averages

  /** `entry.analysis.categories[key] || 0` */
  function Score(a: Analysis, key: string): int {
    if key in a.categories then a.categories[key] else 0
  }

  /** The sum of the `key` scores of the analysed entries of `s`. */
  function CategorySum(s: seq<JournalEntry>, key: string): int {
    if s == [] then 0
    else
      var e := s[|s| - 1];
      CategorySum(s[..|s| - 1], key) + (if e.analysis.Some? then Score(e.analysis.value, key) else 0)
  }

  /**
   * `Math.round(sum / n * 10)`, computed exactly: the average in tenths,
   * rounded half up.
   */
  function RoundedTenths(sum: int, n: nat): (t: int)
    requires n > 0
    ensures 2 * n * t <= 20 * sum + n < 2 * n * (t + 1)
  {
    (20 * sum + n) / (2 * n)
  }

  // ---------------------------------------------------------------------------
  // The statistics

  /**
   * The result of calculateStats. Category averages are integers counting
   * tenths (15 stands for 1.5).
   */
  datatype Stats = Stats(
    categories: seq<(string, int)>,
    sentiment: string,
    sentimentCounts: seq<(string, nat)>,
    totalEntries: nat,
    topConcern: string,
    improvementTrend: Trend)

  /**
   * calculateStats: nothing when the window holds fewer than five entries;
   * otherwise the per-category averages over the window, each sentiment's
   * count, the dominant sentiment and the top concern (the last key among
   * the maximal ones), and the trend.
   */
  method CalculateStats(history: seq<JournalEntry>, timeframe: string, now: int) returns (stats: Option<Stats>)
    ensures stats.None? <==> |FilteredHistory(history, timeframe, now)| < MIN_STATS_ENTRIES
    ensures stats.Some? ==>
      var w := FilteredHistory(history, timeframe, now);
      var st := stats.value;
      && st.totalEntries == |w|
      && |st.categories| == |CATEGORY_KEYS|
      && (forall i :: 0 <= i < |CATEGORY_KEYS| ==>
            st.categories[i] == (CATEGORY_KEYS[i], RoundedTenths(CategorySum(w, CATEGORY_KEYS[i]), |w|)))
      && (exists i :: LastMaxAt(Values(st.categories), i) && st.topConcern == st.categories[i].0)
      && |st.sentimentCounts| >= 3 && Keys(st.sentimentCounts)[..3] == SENTIMENT_KEYS
      && Distinct(Keys(st.sentimentCounts))
      && (forall k :: k in Keys(st.sentimentCounts) <==> k in SENTIMENT_KEYS || SentimentCount(w, k) > 0)
      && st.sentimentCounts == Tally(w)
      && (forall k :: Lookup(st.sentimentCounts, k) == SentimentCount(w, k))
      && Total(st.sentimentCounts) == AnalysedCount(w)
      && (exists i :: LastMaxAt(Values(st.sentimentCounts), i) && st.sentiment == st.sentimentCounts[i].0)
      && st.improvementTrend == CalculateTrend(w)
  {
    var w := FilteredHistory(history, timeframe, now);
    if |w| < MIN_STATS_ENTRIES {
      return None;
    }
    var sums, counts := Accumulate(w);
    var averages := Averages(sums, |w|);
    TallyKeys(w);
    var s := ReduceMax(Values(counts));
    var c := ReduceMax(Values(averages));
    TallyTotal(w);
    forall key ensures Lookup(counts, key) == SentimentCount(w, key) {
      TallyLookup(w, key);
    }
    stats := Some(Stats(averages, counts[s].0, counts, |w|, averages[c].0, CalculateTrend(w)));
  }

  /**
   * The loop over the window: every analysed entry adds its category scores
   * to the running sums and bumps the count of its sentiment.
   */
  method Accumulate(w: seq<JournalEntry>) returns (sums: seq<int>, counts: seq<(string, nat)>)
    ensures |sums| == |CATEGORY_KEYS|
    ensures forall k :: 0 <= k < |CATEGORY_KEYS| ==> sums[k] == CategorySum(w, CATEGORY_KEYS[k])
    ensures counts == Tally(w)
  {
    sums := [0, 0, 0, 0, 0];
    counts := INITIAL_COUNTS;
    var i := 0;
    while i < |w|
      invariant 0 <= i <= |w|
      invariant |sums| == |CATEGORY_KEYS|
      invariant forall k :: 0 <= k < |CATEGORY_KEYS| ==> sums[k] == CategorySum(w[..i], CATEGORY_KEYS[k])
      invariant counts == Tally(w[..i])
    {
      var e := w[i];
      assert w[..i + 1][..i] == w[..i];
      if e.analysis.Some? {
        var a := e.analysis.value;
        sums := AddScores(sums, a);
        counts := Bump(counts, a.sentiment);
      }
      i := i + 1;
    }
    assert w[..|w|] == w;
  }

  /** The inner loop over the category keys: each sum grows by the entry's score for its key. */
  method AddScores(sums: seq<int>, a: Analysis) returns (r: seq<int>)
    requires |sums| == |CATEGORY_KEYS|
    ensures |r| == |CATEGORY_KEYS|
    ensures forall k :: 0 <= k < |CATEGORY_KEYS| ==> r[k] == sums[k] + Score(a, CATEGORY_KEYS[k])
  {
    r := sums;
    var j := 0;
    while j < |CATEGORY_KEYS|
      invariant 0 <= j <= |CATEGORY_KEYS| && |r| == |CATEGORY_KEYS|
      invariant forall k :: 0 <= k < |CATEGORY_KEYS| ==>
        r[k] == sums[k] + (if k < j then Score(a, CATEGORY_KEYS[k]) else 0)
    {
      r := r[j := r[j] + Score(a, CATEGORY_KEYS[j])];
      j := j + 1;
    }
  }

  /** The averages object: each category's sum over `n` entries, in tenths rounded half up. */
  method Averages(sums: seq<int>, n: nat) returns (averages: seq<(string, int)>)
    requires n > 0 && |sums| == |CATEGORY_KEYS|
    ensures |averages| == |CATEGORY_KEYS|
    ensures forall k :: 0 <= k < |CATEGORY_KEYS| ==>
      averages[k] == (CATEGORY_KEYS[k], RoundedTenths(sums[k], n))
  {
    averages := [];
    var k := 0;
    while k < |CATEGORY_KEYS|
      invariant 0 <= k <= |CATEGORY_KEYS| && |averages| == k
      invariant forall m :: 0 <= m < k ==> averages[m] == (CATEGORY_KEYS[m], RoundedTenths(sums[m], n))
    {
      averages := averages + [(CATEGORY_KEYS[k], RoundedTenths(sums[k], n))];
      k := k + 1;
    }
  }
}
