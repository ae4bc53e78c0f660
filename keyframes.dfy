/**
 * The keyframe record of a lighting sequence and the whole-table operations
 * the editor applies to it: order by time (pandas `sort_values`), select by
 * time range (boolean masks), and renumber `frame_id`.
 *
 * A keyframe has a time in milliseconds, ten channels of (function, red,
 * green, blue) and a free-text marker.  A table is a `seq<Keyframe>`.
 */
module Keyframes {
  import opened Common

  const NumChannels: nat := 10

  datatype Channel = Channel(fn: int, red: int, green: int, blue: int)

  datatype Keyframe = Keyframe(frameId: int, time: real, channels: seq<Channel>, marker: string)

  /** The colour components of a channel. */
  datatype Component = Red | Green | Blue

  function Value(c: Channel, k: Component): int
  {
    match k
    case Red => c.red
    case Green => c.green
    case Blue => c.blue
  }

  predicate WellFormed(k: Keyframe) { |k.channels| == NumChannels }

  predicate AllWellFormed(s: seq<Keyframe>) { forall i :: 0 <= i < |s| ==> WellFormed(s[i]) }

  function Times(s: seq<Keyframe>): (t: seq<real>)
    ensures |t| == |s|
    ensures forall i :: 0 <= i < |s| ==> t[i] == s[i].time
  {
    seq(|s|, i requires 0 <= i < |s| => s[i].time)
  }

  ghost predicate SortedByTime(s: seq<Keyframe>)
  {
    forall i, j :: 0 <= i < j < |s| ==> s[i].time <= s[j].time
  }

  /** Sorted with no repeated timestamp: the editor's table invariant. */
  ghost predicate StrictlySorted(s: seq<Keyframe>)
  {
    forall i, j :: 0 <= i < j < |s| ==> s[i].time < s[j].time
  }

  lemma SortedTimes(s: seq<Keyframe>)
    requires SortedByTime(s)
    ensures Sorted(Times(s))
  {
  }

  /** Sum of the 30 colour values of a frame (the brightness the renderer scores). */
  function ChannelSum(cs: seq<Channel>): (total: int)
    ensures (forall i :: 0 <= i < |cs| ==> cs[i].red >= 0 && cs[i].green >= 0 && cs[i].blue >= 0) ==> total >= 0
  {
    if cs == [] then 0 else cs[0].red + cs[0].green + cs[0].blue + ChannelSum(cs[1..])
  }

  function Brightness(k: Keyframe): int
  {
    ChannelSum(k.channels)
  }

  // ---------------------------------------------------------------------
  // Ordering by time
  // ---------------------------------------------------------------------

  /** Every row is earlier than v. */
  ghost predicate AllBefore(s: seq<Keyframe>, v: real) { forall i :: 0 <= i < |s| ==> s[i].time < v }

  /** Every row is at v or later. */
  ghost predicate AllFrom(s: seq<Keyframe>, v: real) { forall i :: 0 <= i < |s| ==> s[i].time >= v }

  /** Every row is later than v. */
  ghost predicate AllAfter(s: seq<Keyframe>, v: real) { forall i :: 0 <= i < |s| ==> s[i].time > v }

  /** Every row is at v or earlier. */
  ghost predicate AllUpTo(s: seq<Keyframe>, v: real) { forall i :: 0 <= i < |s| ==> s[i].time <= v }

  lemma SortedCons(x: Keyframe, s: seq<Keyframe>)
    requires SortedByTime(s)
    requires s == [] || x.time <= s[0].time
    ensures SortedByTime([x] + s)
  {
    var r := [x] + s;
    forall i, j | 0 <= i < j < |r| ensures r[i].time <= r[j].time {
      if i == 0 && j > 1 { assert s[0].time <= s[j - 1].time; }
    }
  }

  /** Puts x before the first entry whose time is not earlier (so earlier input stays first). */
  function Insert(x: Keyframe, s: seq<Keyframe>): (r: seq<Keyframe>)
    ensures |r| == |s| + 1
    ensures multiset(r) == multiset(s) + multiset{x}
    ensures r[0] == x || (s != [] && r[0] == s[0])
    ensures SortedByTime(s) ==> SortedByTime(r)
  {
    if s == [] || x.time <= s[0].time then
      assert SortedByTime(s) ==> SortedByTime([x] + s) by {
        if SortedByTime(s) { SortedCons(x, s); }
      }
      [x] + s
    else
      var rest := Insert(x, s[1..]);
      assert s == [s[0]] + s[1..];
      assert SortedByTime(s) ==> SortedByTime([s[0]] + rest) by {
        if SortedByTime(s) { SortedCons(s[0], rest); }
      }
      [s[0]] + rest
  }

  /** A stable sort by time: the model of `sort_values('frame_time_ms')`. */
  function SortByTime(s: seq<Keyframe>): (r: seq<Keyframe>)
    ensures |r| == |s|
    ensures multiset(r) == multiset(s)
    ensures SortedByTime(r)
  {
    if s == [] then [] else
      assert s == [s[0]] + s[1..];
      Insert(s[0], SortByTime(s[1..]))
  }

  lemma {:induction false} SortOfSorted(s: seq<Keyframe>)
    requires SortedByTime(s)
    ensures SortByTime(s) == s
  {
    if s != [] {
      SortOfSorted(s[1..]);
    }
  }

  lemma {:induction false} InsertBounds(x: Keyframe, s: seq<Keyframe>, lo: real, hi: real)
    ensures AllFrom(s, lo) && x.time >= lo ==> AllFrom(Insert(x, s), lo)
    ensures AllUpTo(s, hi) && x.time <= hi ==> AllUpTo(Insert(x, s), hi)
  {
    if s != [] && x.time > s[0].time {
      InsertBounds(x, s[1..], lo, hi);
    }
  }

  /** Sorting keeps every row inside any bounds the input lies in. */
  lemma {:induction false} SortBounds(s: seq<Keyframe>, lo: real, hi: real)
    ensures AllFrom(s, lo) ==> AllFrom(SortByTime(s), lo)
    ensures AllUpTo(s, hi) ==> AllUpTo(SortByTime(s), hi)
  {
    if s != [] {
      SortBounds(s[1..], lo, hi);
      InsertBounds(s[0], SortByTime(s[1..]), lo, hi);
    }
  }

  lemma HeadSplit(a: seq<Keyframe>, t: seq<Keyframe>)
    requires a != []
    ensures a == [a[0]] + a[1..]
    ensures a + t == [a[0]] + (a[1..] + t)
    ensures t + a == (t + [a[0]]) + a[1..]
  {
  }

  lemma SortCons(x: Keyframe, s: seq<Keyframe>)
    ensures SortByTime([x] + s) == Insert(x, SortByTime(s))
  {
    assert ([x] + s)[1..] == s;
  }

  /** Rows that all come before a pivot stay in front, in order, when the rest is at or after it. */
  lemma {:induction false} SortKeepsEarlierPrefix(a: seq<Keyframe>, t: seq<Keyframe>, pivot: real)
    requires SortedByTime(a) && AllBefore(a, pivot) && AllFrom(t, pivot)
    ensures SortByTime(a + t) == a + SortByTime(t)
  {
    if a == [] {
      assert a + t == t;
    } else {
      var rest := a[1..];
      HeadSplit(a, t);
      HeadSplit(a, SortByTime(t));
      SortCons(a[0], rest + t);
      SortKeepsEarlierPrefix(rest, t, pivot);
      SortBounds(t, pivot, pivot);
      var u := rest + SortByTime(t);
      assert u == [] || a[0].time <= u[0].time;
    }
  }

  lemma {:induction false} InsertAfterEarlier(x: Keyframe, u: seq<Keyframe>, v: seq<Keyframe>)
    requires AllBefore(u, x.time)
    requires v == [] || x.time <= v[0].time
    ensures Insert(x, u + v) == u + [x] + v
  {
    if u == [] {
      assert u + v == v;
    } else {
      HeadSplit(u, v);
      HeadSplit(u, [x] + v);
      InsertAfterEarlier(x, u[1..], v);
      assert u + [x] + v == u + ([x] + v);
    }
  }

  /** Rows that all come after a pivot move, in order, behind the rest when that is at or before it. */
  lemma {:induction false} SortMovesLaterSuffix(b: seq<Keyframe>, d: seq<Keyframe>, pivot: real)
    requires SortedByTime(b) && AllAfter(b, pivot) && AllUpTo(d, pivot)
    ensures SortByTime(b + d) == SortByTime(d) + b
  {
    if b == [] {
      assert b + d == d;
    } else {
      var rest := b[1..];
      HeadSplit(b, d);
      HeadSplit(b, SortByTime(d));
      SortCons(b[0], rest + d);
      SortMovesLaterSuffix(rest, d, pivot);
      SortBounds(d, pivot, pivot);
      InsertAfterEarlier(b[0], SortByTime(d), rest);
    }
  }

  /** `min()` of the time column. */
  function MinTime(s: seq<Keyframe>): (m: real)
    requires s != []
    ensures forall i :: 0 <= i < |s| ==> m <= s[i].time
    ensures exists i :: 0 <= i < |s| && s[i].time == m
  {
    if |s| == 1 then s[0].time
    else
      var m := MinTime(s[1..]);
      assert s[1..][0] == s[1];
      if s[0].time <= m then s[0].time else m
  }

  /** `max()` of the time column. */
  function MaxTime(s: seq<Keyframe>): (m: real)
    requires s != []
    ensures forall i :: 0 <= i < |s| ==> m >= s[i].time
    ensures exists i :: 0 <= i < |s| && s[i].time == m
  {
    if |s| == 1 then s[0].time
    else
      var m := MaxTime(s[1..]);
      assert s[1..][0] == s[1];
      if s[0].time >= m then s[0].time else m
  }

  // ---------------------------------------------------------------------
  // Selection by time range
  // ---------------------------------------------------------------------

  /** Rows with lo <= time <= hi, in table order (`(t >= lo) & (t <= hi)`). */
  function Within(s: seq<Keyframe>, lo: real, hi: real): (r: seq<Keyframe>)
    ensures |r| <= |s|
    ensures AllFrom(r, lo) && AllUpTo(r, hi)
  {
    if s == [] then []
    else if lo <= s[0].time <= hi then [s[0]] + Within(s[1..], lo, hi)
    else Within(s[1..], lo, hi)
  }

  /** Rows outside [lo, hi], in table order (`main_df[~mask]`). */
  function Outside(s: seq<Keyframe>, lo: real, hi: real): (r: seq<Keyframe>)
    ensures |r| <= |s|
    ensures forall i :: 0 <= i < |r| ==> r[i].time < lo || r[i].time > hi
  {
    if s == [] then []
    else if lo <= s[0].time <= hi then Outside(s[1..], lo, hi)
    else [s[0]] + Outside(s[1..], lo, hi)
  }

  function Before(s: seq<Keyframe>, lo: real): (r: seq<Keyframe>)
    ensures AllBefore(r, lo)
  {
    if s == [] then [] else if s[0].time < lo then [s[0]] + Before(s[1..], lo) else Before(s[1..], lo)
  }

  function After(s: seq<Keyframe>, hi: real): (r: seq<Keyframe>)
    ensures AllAfter(r, hi)
  {
    if s == [] then [] else if s[0].time > hi then [s[0]] + After(s[1..], hi) else After(s[1..], hi)
  }

  lemma SortedTail(s: seq<Keyframe>)
    requires SortedByTime(s) && s != []
    ensures SortedByTime(s[1..])
    ensures AllFrom(s[1..], s[0].time)
  {
  }

  lemma {:induction false} NoneBefore(s: seq<Keyframe>, lo: real)
    requires AllFrom(s, lo)
    ensures Before(s, lo) == []
  {
    if s != [] { NoneBefore(s[1..], lo); }
  }

  lemma {:induction false} NoneWithin(s: seq<Keyframe>, lo: real, hi: real)
    requires AllAfter(s, hi)
    ensures Within(s, lo, hi) == []
  {
    if s != [] { NoneWithin(s[1..], lo, hi); }
  }

  lemma ConsRegroup(x: Keyframe, p: seq<Keyframe>, q: seq<Keyframe>, r: seq<Keyframe>)
    ensures ([x] + p) + q + r == [x] + (p + q + r)
    ensures p + ([x] + q) + r == [x] + (q + r) <== p == []
    ensures ([x] + p) + q == [x] + (p + q)
    ensures [] + p == p && p + [] == p
  {
  }

  /** A sorted table is the rows before lo, then the rows in [lo, hi], then the rows after hi. */
  lemma {:induction false} SortedSplit(s: seq<Keyframe>, lo: real, hi: real)
    requires SortedByTime(s) && lo <= hi
    ensures s == Before(s, lo) + Within(s, lo, hi) + After(s, hi)
    ensures Outside(s, lo, hi) == Before(s, lo) + After(s, hi)
  {
    if s != [] {
      var x, t := s[0], s[1..];
      HeadSplit(s, []);
      SortedTail(s);
      SortedSplit(t, lo, hi);
      var b, w, a := Before(t, lo), Within(t, lo, hi), After(t, hi);
      if x.time < lo {
        assert Before(s, lo) == [x] + b;
        assert Within(s, lo, hi) == w;
        assert After(s, hi) == a;
        assert Outside(s, lo, hi) == [x] + Outside(t, lo, hi);
        ConsRegroup(x, b, w, a);
        ConsRegroup(x, b, a, []);
      } else if x.time <= hi {
        NoneBefore(t, lo);
        assert Before(s, lo) == [];
        assert Within(s, lo, hi) == [x] + w;
        assert After(s, hi) == a;
        assert Outside(s, lo, hi) == Outside(t, lo, hi);
        ConsRegroup(x, w, a, []);
        ConsRegroup(x, b, w, a);
        ConsRegroup(x, a, [], []);
      } else {
        NoneBefore(t, lo);
        NoneWithin(t, lo, hi);
        assert Before(s, lo) == [];
        assert Within(s, lo, hi) == [];
        assert After(s, hi) == [x] + a;
        assert Outside(s, lo, hi) == [x] + Outside(t, lo, hi);
        ConsRegroup(x, a, [], []);
        ConsRegroup(x, b, w, a);
      }
    }
  }

  /** Sub-selections of a sorted table are sorted. */
  lemma {:induction false} SelectionsSorted(s: seq<Keyframe>, lo: real, hi: real)
    requires SortedByTime(s)
    ensures SortedByTime(Within(s, lo, hi))
    ensures SortedByTime(Before(s, lo))
    ensures SortedByTime(After(s, hi))
  {
    if s != [] {
      SortedTail(s);
      SelectionsSorted(s[1..], lo, hi);
      WithinFrom(s[1..], lo, hi, s[0].time);
      BeforeFrom(s[1..], lo, s[0].time);
      AfterFrom(s[1..], hi, s[0].time);
      if lo <= s[0].time <= hi { SortedCons(s[0], Within(s[1..], lo, hi)); }
      if s[0].time < lo { SortedCons(s[0], Before(s[1..], lo)); }
      if s[0].time > hi { SortedCons(s[0], After(s[1..], hi)); }
    }
  }

  lemma {:induction false} WithinFrom(s: seq<Keyframe>, lo: real, hi: real, v: real)
    requires AllFrom(s, v)
    ensures AllFrom(Within(s, lo, hi), v)
  {
    if s != [] { WithinFrom(s[1..], lo, hi, v); }
  }

  lemma {:induction false} BeforeFrom(s: seq<Keyframe>, lo: real, v: real)
    requires AllFrom(s, v)
    ensures AllFrom(Before(s, lo), v)
  {
    if s != [] { BeforeFrom(s[1..], lo, v); }
  }

  lemma {:induction false} AfterFrom(s: seq<Keyframe>, hi: real, v: real)
    requires AllFrom(s, v)
    ensures AllFrom(After(s, hi), v)
  {
    if s != [] { AfterFrom(s[1..], hi, v); }
  }

  // ---------------------------------------------------------------------
  // frame_id
  // ---------------------------------------------------------------------

  /** `frame_id = range(1, n + 1)`: every row keeps its content, ids become 1..n. */
  function Renumber(s: seq<Keyframe>): (r: seq<Keyframe>)
    ensures |r| == |s|
    ensures forall i :: 0 <= i < |s| ==> r[i] == s[i].(frameId := i + 1)
  {
    seq(|s|, i requires 0 <= i < |s| => s[i].(frameId := i + 1))
  }

  ghost predicate NumberedFromOne(s: seq<Keyframe>)
  {
    forall i :: 0 <= i < |s| ==> s[i].frameId == i + 1
  }

  lemma RenumberNumbers(s: seq<Keyframe>)
    ensures NumberedFromOne(Renumber(s))
    ensures Times(Renumber(s)) == Times(s)
  {
  }

  lemma RenumberOfNumbered(s: seq<Keyframe>)
    requires NumberedFromOne(s)
    ensures Renumber(s) == s
  {
  }

  /** Shifts every time by delta: `at_ms + (t - offset)` with delta = at_ms - offset. */
  function Shift(s: seq<Keyframe>, delta: real): (r: seq<Keyframe>)
    ensures |r| == |s|
    ensures forall i :: 0 <= i < |s| ==> r[i] == s[i].(time := s[i].time + delta)
  {
    seq(|s|, i requires 0 <= i < |s| => s[i].(time := s[i].time + delta))
  }

  lemma ShiftKeepsGaps(s: seq<Keyframe>, delta: real)
    ensures forall i, j :: 0 <= i < |s| && 0 <= j < |s| ==>
      Shift(s, delta)[j].time - Shift(s, delta)[i].time == s[j].time - s[i].time
    ensures SortedByTime(s) ==> SortedByTime(Shift(s, delta))
  {
  }

  lemma ShiftByZero(s: seq<Keyframe>)
    ensures Shift(s, 0.0) == s
  {
  }
}
