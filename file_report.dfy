/** The corpus report: per-track tempos, the key count, per-track pitch bounds, and the
    aggregates drawn from them. */
module FileReports {
  import opened Basics
  import opened Seqs

  /** One item of the key-count dictionary. */
  datatype KeyCount = KeyCount(key: int, count: nat)

  predicate DistinctKeys(items: seq<KeyCount>)
  {
    forall i, j :: 0 <= i < j < |items| ==> items[i].key != items[j].key
  }

  predicate HasKey(items: seq<KeyCount>, k: int)
  {
    exists i :: 0 <= i < |items| && items[i].key == k
  }

  /** Counting one more occurrence of k: the count of its item goes up by one, or, for a key
      not seen before, an item is appended (a dict keeps insertion order). */
  function Bump(items: seq<KeyCount>, k: int): (r: seq<KeyCount>)
    requires DistinctKeys(items)
    ensures DistinctKeys(r)
    ensures !HasKey(items, k) ==> r == items + [KeyCount(k, 1)]
    ensures HasKey(items, k) ==> |r| == |items|
    ensures HasKey(items, k) ==>
              forall i :: 0 <= i < |items| ==>
                r[i] == if items[i].key == k then KeyCount(k, items[i].count + 1) else items[i]
  {
    if items == [] then [KeyCount(k, 1)]
    else if items[0].key == k then
      assert !HasKey(items[1..], k);
      [KeyCount(k, items[0].count + 1)] + items[1..]
    else
      assert HasKey(items, k) ==> HasKey(items[1..], k);
      [items[0]] + Bump(items[1..], k)
  }

  lemma HasKeyAt(items: seq<KeyCount>, i: nat, k: int)
    requires i < |items| && items[i].key == k
    ensures HasKey(items, k)
  {
  }

  /** Counting k keeps every item's key in place, and a new key lands right after them. */
  lemma BumpKeys(items: seq<KeyCount>, k: int, i: nat)
    requires DistinctKeys(items) && i <= |items|
    requires i == |items| ==> !HasKey(items, k)
    ensures i < |Bump(items, k)|
    ensures Bump(items, k)[i].key == if i < |items| then items[i].key else k
  {
  }

  /** dict(Counter(keys)): the keys in order of first occurrence, each with its count. */
  function Tally(keys: seq<int>): (r: seq<KeyCount>)
    ensures DistinctKeys(r)
    ensures r == [] <==> keys == []
  {
    if keys == [] then [] else Bump(Tally(keys[..|keys| - 1]), keys[|keys| - 1])
  }

  /** Each item of the key count holds a key that occurs, with the number of its
      occurrences. */
  lemma {:induction false} TallyCounts(keys: seq<int>, i: nat)
    requires i < |Tally(keys)|
    ensures Tally(keys)[i].key in keys
    ensures Tally(keys)[i].count == multiset(keys)[Tally(keys)[i].key]
  {
    var n := |keys|;
    var front, k := keys[..n - 1], keys[n - 1];
    assert keys == front + [k];
    var t, r := Tally(front), Tally(keys);
    assert multiset(keys) == multiset(front) + multiset{k};
    if i < |t| {
      TallyCounts(front, i);
      assert r[i].key == t[i].key;
    } else {
      assert !HasKey(t, k) && r[i] == KeyCount(k, 1);
      assert k !in front by {
        if k in front {
          TallyCovers(front, k);
        }
      }
    }
  }

  /** Every key that occurs has an item in the key count. */
  lemma {:induction false} TallyCovers(keys: seq<int>, x: int)
    requires x in keys
    ensures HasKey(Tally(keys), x)
  {
    var n := |keys|;
    var front, k := keys[..n - 1], keys[n - 1];
    var t := Tally(front);
    var i: nat;
    if x in front {
      TallyCovers(front, x);
      i :| i < |t| && t[i].key == x;
    } else {
      var m :| 0 <= m < n && keys[m] == x;
      assert m == n - 1;
      if HasKey(t, k) {
        i :| i < |t| && t[i].key == k;
      } else {
        i := |t|;
      }
    }
    BumpKeys(t, k, i);
    HasKeyAt(Tally(keys), i, x);
  }

  /** Counting the last key keeps the items of the count of the keys before it, in place, and
      appends an item only for a key not met before. */
  lemma TallyExtends(keys: seq<int>)
    requires keys != []
    ensures var front, r := keys[..|keys| - 1], Tally(keys);
      && |Tally(front)| <= |r|
      && (forall i :: 0 <= i < |Tally(front)| ==> r[i].key == Tally(front)[i].key)
      && (|Tally(front)| < |r| ==>
            |r| == |Tally(front)| + 1 && r[|Tally(front)|].key == keys[|keys| - 1] &&
            keys[|keys| - 1] !in front)
  {
    var front, k := keys[..|keys| - 1], keys[|keys| - 1];
    if k in front {
      TallyCovers(front, k);
    }
  }

  /** The items of the key count come in the order their keys are first met. */
  lemma {:induction false} TallyFirstSeenOrder(keys: seq<int>, i: nat, j: nat)
    requires i < j < |Tally(keys)|
    ensures FirstIndex(keys, Tally(keys)[i].key) < FirstIndex(keys, Tally(keys)[j].key)
  {
    var n := |keys|;
    var front := keys[..n - 1];
    var t, r := Tally(front), Tally(keys);
    TallyExtends(keys);
    TallyCounts(front, i);
    var x := t[i].key;
    assert r[i].key == x && x in front;
    assert FirstIndex(keys, x) == FirstIndex(front, x) < n - 1;
    if j < |t| {
      TallyFirstSeenOrder(front, i, j);
      TallyCounts(front, j);
      var y := t[j].key;
      assert r[j].key == y && y in front;
      assert FirstIndex(keys, y) == FirstIndex(front, y);
    } else {
      assert r[j].key == keys[n - 1] && keys[n - 1] !in front;
      assert FirstIndex(keys, keys[n - 1]) == n - 1;
    }
  }

  /** The sort key of get_most_freq_value. sorted(..., reverse=True) is a stable sort by
      descending count; with reverse=False it is a stable sort by ascending count, that is,
      by descending negated count. */
  function Rank(item: KeyCount, reverse: bool): int
  {
    if reverse then item.count else -(item.count as int)
  }

  /** Every item ranks no lower than the one after it. */
  predicate SortedByRank(s: seq<KeyCount>, reverse: bool)
  {
    forall i :: 0 < i < |s| ==> Rank(s[i - 1], reverse) >= Rank(s[i], reverse)
  }

  /** In a sorted list every item ranks no lower than any later one. */
  lemma {:induction false} SortedByRankPairs(s: seq<KeyCount>, reverse: bool)
    requires SortedByRank(s, reverse)
    ensures forall i, j :: 0 <= i < j < |s| ==> Rank(s[i], reverse) >= Rank(s[j], reverse)
  {
    if s != [] {
      var front := s[..|s| - 1];
      assert SortedByRank(front, reverse) by {
        forall i | 0 < i < |front| ensures Rank(front[i - 1], reverse) >= Rank(front[i], reverse) {
          assert front[i - 1] == s[i - 1] && front[i] == s[i];
        }
      }
      SortedByRankPairs(front, reverse);
      forall i, j | 0 <= i < j < |s| ensures Rank(s[i], reverse) >= Rank(s[j], reverse) {
        if j < |s| - 1 {
          assert s[i] == front[i] && s[j] == front[j];
        } else if i < j - 1 {
          assert s[i] == front[i] && s[j - 1] == front[j - 1];
        }
      }
    }
  }

  /** Puts item in front of the first element it does not rank below. item comes from
      earlier in the input than every element of sorted, so ties keep input order. */
  function InsertByRank(item: KeyCount, sorted: seq<KeyCount>, reverse: bool): (r: seq<KeyCount>)
    ensures |r| == |sorted| + 1
    ensures multiset(r) == multiset(sorted) + multiset{item}
    ensures r[0] == item || (sorted != [] && r[0] == sorted[0])
  {
    if sorted == [] || Rank(sorted[0], reverse) <= Rank(item, reverse) then
      [item] + sorted
    else
      var rest := InsertByRank(item, sorted[1..], reverse);
      assert sorted == [sorted[0]] + sorted[1..];
      [sorted[0]] + rest
  }

  lemma {:induction false} InsertKeepsSorted(item: KeyCount, sorted: seq<KeyCount>, reverse: bool)
    requires SortedByRank(sorted, reverse)
    ensures SortedByRank(InsertByRank(item, sorted, reverse), reverse)
  {
    if sorted != [] && Rank(sorted[0], reverse) > Rank(item, reverse) {
      var r, rest := InsertByRank(item, sorted, reverse), InsertByRank(item, sorted[1..], reverse);
      assert SortedByRank(sorted[1..], reverse) by {
        forall i | 0 < i < |sorted| - 1
          ensures Rank(sorted[1..][i - 1], reverse) >= Rank(sorted[1..][i], reverse)
        {
          assert sorted[1..][i - 1] == sorted[i] && sorted[1..][i] == sorted[i + 1];
        }
      }
      InsertKeepsSorted(item, sorted[1..], reverse);
      assert r == [sorted[0]] + rest;
      forall i | 0 < i < |r| ensures Rank(r[i - 1], reverse) >= Rank(r[i], reverse) {
        if i == 1 {
          assert r[1] == rest[0] && (rest[0] == item || rest[0] == sorted[1]);
        } else {
          assert r[i - 1] == rest[i - 2] && r[i] == rest[i - 1];
        }
      }
    }
  }

  /** sorted(items, key=count, reverse=reverse): a stable insertion sort by rank. */
  function SortByCount(items: seq<KeyCount>, reverse: bool): (r: seq<KeyCount>)
    ensures multiset(r) == multiset(items)
    ensures SortedByRank(r, reverse)
  {
    if items == [] then []
    else
      assert items == [items[0]] + items[1..];
      InsertKeepsSorted(items[0], SortByCount(items[1..], reverse), reverse);
      InsertByRank(items[0], SortByCount(items[1..], reverse), reverse)
  }

  /** The inserted item goes first unless the head of the list outranks it. */
  lemma InsertHead(item: KeyCount, sorted: seq<KeyCount>, reverse: bool)
    ensures InsertByRank(item, sorted, reverse)[0] ==
      if sorted == [] || Rank(sorted[0], reverse) <= Rank(item, reverse) then item else sorted[0]
  {
  }

  /** The index of the first item that no item outranks. */
  function FirstBestIndex(items: seq<KeyCount>, reverse: bool): (b: nat)
    requires items != []
    ensures b < |items|
    ensures forall j :: 0 <= j < |items| ==> Rank(items[j], reverse) <= Rank(items[b], reverse)
    ensures forall j :: 0 <= j < b ==> Rank(items[j], reverse) < Rank(items[b], reverse)
  {
    if |items| == 1 then 0
    else
      var j := FirstBestIndex(items[1..], reverse);
      if Rank(items[j + 1], reverse) <= Rank(items[0], reverse) then 0 else j + 1
  }

  /** The first best item of a longer list is its first item or the first best of the rest. */
  lemma FirstBestStep(items: seq<KeyCount>, reverse: bool)
    requires |items| > 1
    ensures var j := FirstBestIndex(items[1..], reverse);
      FirstBestIndex(items, reverse) == if Rank(items[j + 1], reverse) <= Rank(items[0], reverse) then 0 else j + 1
  {
  }

  /** Stability decides the head of the sort: it is the first item that no item outranks. */
  lemma {:induction false} SortHead(items: seq<KeyCount>, reverse: bool)
    requires items != []
    ensures SortByCount(items, reverse) != []
    ensures SortByCount(items, reverse)[0] == items[FirstBestIndex(items, reverse)]
  {
    var rest := items[1..];
    var tail := SortByCount(rest, reverse);
    assert SortByCount(items, reverse) == InsertByRank(items[0], tail, reverse);
    InsertHead(items[0], tail, reverse);
    if rest != [] {
      SortHead(rest, reverse);
      FirstBestStep(items, reverse);
    }
  }

  /** get_most_freq_value(keys, reverse): the key of the first item of the sorted items;
      the [0] of an empty dictionary's sorted items raises. */
  function MostFreqValue(items: seq<KeyCount>, reverse: bool): (r: Result<int>)
    ensures r.Err? <==> items == []
    ensures r.Err? ==> r.error == EmptyKeyCount
    ensures r.Ok? ==> r.value == items[FirstBestIndex(items, reverse)].key
  {
    if items == [] then Err(EmptyKeyCount)
    else
      SortHead(items, reverse);
      Ok(SortByCount(items, reverse)[0].key)
  }

  /** Over the key count of a key sequence, get_most_freq_value with the default reverse=True
      returns a key that occurs, that no key occurs more often than, and that is met no later
      than any other key occurring as often. */
  lemma MostFrequentKey(keys: seq<int>)
    requires keys != []
    ensures MostFreqValue(Tally(keys), true).Ok?
    ensures var k := MostFreqValue(Tally(keys), true).value;
      && k in keys
      && (forall x :: x in keys ==> multiset(keys)[x] <= multiset(keys)[k])
      && (forall x :: x in keys && multiset(keys)[x] == multiset(keys)[k] ==>
            FirstIndex(keys, k) <= FirstIndex(keys, x))
  {
    var t := Tally(keys);
    var b := FirstBestIndex(t, true);
    var k := t[b].key;
    TallyCounts(keys, b);
    forall x | x in keys
      ensures multiset(keys)[x] <= multiset(keys)[k]
      ensures multiset(keys)[x] == multiset(keys)[k] ==> FirstIndex(keys, k) <= FirstIndex(keys, x)
    {
      TallyCovers(keys, x);
      var i :| 0 <= i < |t| && t[i].key == x;
      TallyCounts(keys, i);
      assert Rank(t[i], true) <= Rank(t[b], true);
      if multiset(keys)[x] == multiset(keys)[k] && i != b {
        assert b < i;
        TallyFirstSeenOrder(keys, b, i);
      }
    }
  }

  /** int() of a float: truncation toward zero, here of the exact quotient a / n. For a >= 0
      it is the largest q with n * q <= a, for a < 0 the smallest q with a <= n * q. */
  function TruncDiv(a: int, n: nat): (q: int)
    requires n > 0
    ensures 0 <= a ==> 0 <= q && n * q <= a < n * q + n
    ensures a < 0 ==> q <= 0 && n * q - n < a <= n * q
  {
    if a >= 0 then a / n else -((-a) / n)
  }

  /** int(np.array(xs).mean()) of a non-empty list, the float mean taken as the exact one. */
  function TruncMean(xs: seq<int>): (m: int)
    requires xs != []
    ensures 0 <= Sum(xs) ==> 0 <= m && |xs| * m <= Sum(xs) < |xs| * m + |xs|
  {
    TruncDiv(Sum(xs), |xs|)
  }

  lemma DivLower(a: int, n: nat, lo: int)
    requires n > 0 && n * lo <= a
    ensures lo <= a / n
  {
    var q, m := a / n, a % n;
    assert a == n * q + m && 0 <= m < n;
    assert n * lo < n * (q + 1);
  }

  lemma DivUpper(a: int, n: nat, hi: int)
    requires n > 0 && a <= n * hi
    ensures a / n <= hi
  {
    var q, m := a / n, a % n;
    assert a == n * q + m && 0 <= m < n;
    assert n * q <= n * hi;
  }

  lemma MulDivBelow(a: int, n: nat)
    requires n > 0
    ensures n * (a / n) <= a
  {
    assert a == n * (a / n) + a % n;
  }

  lemma TruncDivMonotone(a: int, b: int, n: nat)
    requires n > 0 && a <= b
    ensures TruncDiv(a, n) <= TruncDiv(b, n)
  {
    if 0 <= a {
      var qa := a / n;
      MulDivBelow(a, n);
      DivLower(b, n, qa);
      assert TruncDiv(a, n) == qa && TruncDiv(b, n) == b / n;
    } else if b < 0 {
      var qb := (-b) / n;
      MulDivBelow(-b, n);
      DivLower(-a, n, qb);
      assert TruncDiv(a, n) == -((-a) / n) && TruncDiv(b, n) == -qb;
    } else {
      assert TruncDiv(a, n) == -((-a) / n) && TruncDiv(b, n) == b / n;
      DivLower(-a, n, 0);
      DivLower(b, n, 0);
    }
  }

  /** A pointwise smaller list has a smaller truncated mean. */
  lemma TruncMeanMonotone(xs: seq<int>, ys: seq<int>)
    requires xs != [] && |xs| == |ys|
    requires forall i :: 0 <= i < |xs| ==> xs[i] <= ys[i]
    ensures TruncMean(xs) <= TruncMean(ys)
  {
    SumMonotone(xs, ys);
    TruncDivMonotone(Sum(xs), Sum(ys), |xs|);
  }

  /** The truncated mean of non-negative values in [lo, hi] lies in [lo, hi]. */
  lemma TruncMeanWithin(xs: seq<int>, lo: nat, hi: int)
    requires xs != []
    requires forall i :: 0 <= i < |xs| ==> lo <= xs[i] <= hi
    ensures lo <= TruncMean(xs) <= hi
  {
    SumBounds(xs, lo, hi);
    assert 0 <= |xs| * lo;
    DivLower(Sum(xs), |xs|, lo);
    DivUpper(Sum(xs), |xs|, hi);
  }

  /** Over non-negative values the truncated mean m is the floor of the mean:
      |xs| * m <= Sum(xs) < |xs| * (m + 1). */
  lemma TruncMeanFloor(xs: seq<int>)
    requires xs != []
    requires forall i :: 0 <= i < |xs| ==> 0 <= xs[i]
    ensures 0 <= TruncMean(xs)
    ensures |xs| * TruncMean(xs) <= Sum(xs) < |xs| * (TruncMean(xs) + 1)
  {
    SumNonNegative(xs);
  }

  /** The aggregates used downstream: the most frequent key and the two pitch bounds. */
  datatype Aggregate = Aggregate(mostFreqKey: int, lowPitch: int, highPitch: int)

  /** Per-track tempos, the key count, and per-track lowest and highest pitches. */
  datatype FileReport = FileReport(
    tempos: seq<real>,
    freqKey: seq<KeyCount>,
    minPitch: seq<int>,
    maxPitch: seq<int>)
  {
    /** aggregation_report without the tempo mean and deviation: the most frequent key, and
        the truncated means of the lowest and of the highest pitches. An empty key count
        raises first; an empty pitch list has a NaN mean, which int() rejects. */
    function AggregationReport(): (r: Result<Aggregate>)
      ensures r.Err? <==> freqKey == [] || minPitch == [] || maxPitch == []
      ensures freqKey == [] ==> r == Err(EmptyKeyCount)
      ensures r.Ok? ==> r.value.mostFreqKey == freqKey[FirstBestIndex(freqKey, true)].key
      ensures r.Ok? ==>
        && minPitch != [] && maxPitch != []
        && r.value.lowPitch == TruncMean(minPitch) && r.value.highPitch == TruncMean(maxPitch)
    {
      match MostFreqValue(freqKey, true)
      case Err(e) => Err(e)
      case Ok(key) =>
        if minPitch == [] || maxPitch == [] then Err(EmptyMean)
        else Ok(Aggregate(key, TruncMean(minPitch), TruncMean(maxPitch)))
    }
  }

  /** When every track's lowest pitch is at most its highest and all lie in [0, hi], the
      bounds the aggregation draws satisfy 0 <= low <= high <= hi. */
  lemma PitchBoundsOrdered(report: FileReport, hi: int)
    requires |report.minPitch| == |report.maxPitch|
    requires forall i :: 0 <= i < |report.minPitch| ==>
               0 <= report.minPitch[i] <= report.maxPitch[i] <= hi
    requires report.AggregationReport().Ok?
    ensures var a := report.AggregationReport().value;
      0 <= a.lowPitch <= a.highPitch <= hi
  {
    TruncMeanMonotone(report.minPitch, report.maxPitch);
    TruncMeanWithin(report.minPitch, 0, hi);
    TruncMeanWithin(report.maxPitch, 0, hi);
  }
}
