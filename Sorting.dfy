/** `clips.sort(key=lambda c: c.start_time)`: Python's list sort is stable,
    so clips with equal start times keep their relative order. The sort is
    given here as the stable insertion sort it is equivalent to, together
    with the three facts that characterise a stable sort: the result is
    ordered by start time, it is a permutation of the input, and for every
    start time the clips with that start time appear in their input order. */
module Sorting {
  import opened Records

  predicate SortedByStart(s: seq<Clip>) {
    forall i, j :: 0 <= i < j < |s| ==> s[i].startTime <= s[j].startTime
  }

  /** The clips of s whose start time is t, in the order of s. */
  function AtStart(s: seq<Clip>, t: real): (r: seq<Clip>)
    ensures forall i :: 0 <= i < |r| ==> r[i].startTime == t
  {
    if s == [] then []
    else AtStart(s[..|s| - 1], t) + (if s[|s| - 1].startTime == t then [s[|s| - 1]] else [])
  }

  /** Places c after every clip that starts no later than c. */
  function InsertByStart(s: seq<Clip>, c: Clip): seq<Clip> {
    if s == [] then [c]
    else if c.startTime < s[0].startTime then [c] + s
    else [s[0]] + InsertByStart(s[1..], c)
  }

  function SortByStart(s: seq<Clip>): seq<Clip> {
    if s == [] then []
    else InsertByStart(SortByStart(s[..|s| - 1]), s[|s| - 1])
  }

  /** How many leading clips of s start no later than c. */
  function InsertionPoint(s: seq<Clip>, c: Clip): (k: nat)
    ensures k <= |s|
  {
    if s == [] || c.startTime < s[0].startTime then 0
    else 1 + InsertionPoint(s[1..], c)
  }

  /** Inserting into a sorted list puts c right after the last clip starting no
      later than it, so c lands behind every clip with an equal start time. */
  lemma {:induction false} InsertPosition(s: seq<Clip>, c: Clip)
    requires SortedByStart(s)
    ensures var k := InsertionPoint(s, c);
      && InsertByStart(s, c) == s[..k] + [c] + s[k..]
      && (forall i :: 0 <= i < k ==> s[i].startTime <= c.startTime)
      && (forall i :: k <= i < |s| ==> c.startTime < s[i].startTime)
  {
    if s != [] && c.startTime >= s[0].startTime {
      var k := InsertionPoint(s, c);
      var t := s[1..];
      InsertPosition(t, c);
      assert InsertByStart(s, c) == [s[0]] + InsertByStart(t, c);
      ConsSplit(s, c, k);
      forall i | 0 <= i < k ensures s[i].startTime <= c.startTime {
        if i > 0 {
          assert s[i] == t[i - 1];
        }
      }
      forall i | k <= i < |s| ensures c.startTime < s[i].startTime {
        assert s[i] == t[i - 1];
      }
    }
  }

  /** Splitting a list at k >= 1 is keeping its head and splitting its tail at
      k - 1. */
  lemma ConsSplit<T>(s: seq<T>, c: T, k: nat)
    requires 1 <= k <= |s|
    ensures [s[0]] + (s[1..][..k - 1] + [c] + s[1..][k - 1..]) == s[..k] + [c] + s[k..]
  {
    assert [s[0]] + s[1..][..k - 1] == s[..k];
    assert s[1..][k - 1..] == s[k..];
  }

  lemma {:induction false} InsertSorted(s: seq<Clip>, c: Clip)
    requires SortedByStart(s)
    ensures SortedByStart(InsertByStart(s, c))
  {
    InsertPosition(s, c);
  }

  lemma {:induction false} InsertPermutes(s: seq<Clip>, c: Clip)
    ensures multiset(InsertByStart(s, c)) == multiset(s) + multiset{c}
  {
    if s != [] && c.startTime >= s[0].startTime {
      InsertPermutes(s[1..], c);
      assert s == [s[0]] + s[1..];
    }
  }

  lemma {:induction false} AtStartAppend(a: seq<Clip>, b: seq<Clip>, t: real)
    ensures AtStart(a + b, t) == AtStart(a, t) + AtStart(b, t)
    decreases |b|
  {
    if b != [] {
      var n := |b|;
      assert (a + b)[..|a + b| - 1] == a + b[..n - 1];
      AtStartAppend(a, b[..n - 1], t);
    } else {
      assert a + b == a;
    }
  }

  lemma {:induction false} AtStartNone(s: seq<Clip>, t: real)
    requires forall i :: 0 <= i < |s| ==> s[i].startTime != t
    ensures AtStart(s, t) == []
  {
    if s != [] {
      AtStartNone(s[..|s| - 1], t);
    }
  }

  /** For every start time, insertion keeps the clips with that start time in
      order and puts c behind them. */
  lemma InsertStable(s: seq<Clip>, c: Clip, t: real)
    requires SortedByStart(s)
    ensures AtStart(InsertByStart(s, c), t) == AtStart(s, t) + AtStart([c], t)
  {
    InsertPosition(s, c);
    var k := InsertionPoint(s, c);
    var a, b := s[..k], s[k..];
    assert a + b == s;
    forall i | 0 <= i < |b| ensures c.startTime < b[i].startTime {
      assert b[i] == s[k + i];
    }
    SplitAtStart(a, c, b, t);
  }

  /** A clip put between a and b comes behind the clips of a + b with its
      start time, provided none of them is in b. */
  lemma SplitAtStart(a: seq<Clip>, c: Clip, b: seq<Clip>, t: real)
    requires t == c.startTime ==> forall i :: 0 <= i < |b| ==> b[i].startTime != t
    ensures AtStart(a + [c] + b, t) == AtStart(a + b, t) + AtStart([c], t)
  {
    var x, y, z := AtStart(a, t), AtStart([c], t), AtStart(b, t);
    assert AtStart(a + [c] + b, t) == x + y + z by {
      AtStartAppend(a + [c], b, t);
      AtStartAppend(a, [c], t);
    }
    assert AtStart(a + b, t) == x + z by {
      AtStartAppend(a, b, t);
    }
    if t == c.startTime {
      AtStartNone(b, t);
    } else {
      AtStartNone([c], t);
    }
    SwapAroundEmpty(x, y, z);
  }

  lemma SwapAroundEmpty<T>(x: seq<T>, y: seq<T>, z: seq<T>)
    requires y == [] || z == []
    ensures x + y + z == x + z + y
  {
  }

  /** The stable sort by start time: ordered, a permutation of the input, and
      order-preserving among clips with equal start times. */
  lemma {:induction false} SortByStartCorrect(s: seq<Clip>)
    ensures SortedByStart(SortByStart(s))
    ensures multiset(SortByStart(s)) == multiset(s)
    ensures forall t :: AtStart(SortByStart(s), t) == AtStart(s, t)
  {
    if s != [] {
      var n := |s|;
      var front, last := s[..n - 1], s[n - 1];
      SortByStartCorrect(front);
      InsertSorted(SortByStart(front), last);
      InsertPermutes(SortByStart(front), last);
      assert s == front + [last];
      forall t ensures AtStart(SortByStart(s), t) == AtStart(s, t) {
        InsertStable(SortByStart(front), last, t);
        AtStartAppend(front, [last], t);
      }
    }
  }

  lemma {:induction false} InsertAtEnd(s: seq<Clip>, c: Clip)
    requires forall i :: 0 <= i < |s| ==> s[i].startTime <= c.startTime
    ensures InsertByStart(s, c) == s + [c]
  {
    if s != [] {
      InsertAtEnd(s[1..], c);
    }
  }

  /** Sorting a list that is already in order leaves it as it is. */
  lemma {:induction false} SortOfSorted(s: seq<Clip>)
    requires SortedByStart(s)
    ensures SortByStart(s) == s
  {
    if s != [] {
      var n := |s|;
      SortOfSorted(s[..n - 1]);
      InsertAtEnd(s[..n - 1], s[n - 1]);
    }
  }

  /** Appending a clip to a sorted list and sorting is inserting it behind
      every clip that starts no later. */
  lemma AppendThenSort(s: seq<Clip>, c: Clip)
    requires SortedByStart(s)
    ensures SortByStart(s + [c]) == InsertByStart(s, c)
  {
    assert (s + [c])[..|s|] == s;
    SortOfSorted(s);
  }
}
