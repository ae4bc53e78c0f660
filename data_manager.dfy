/**
 * The keyframe store: the table of the current edit and the operations that
 * replace it (overwrite-paste with a time shift, delete without shifting,
 * frame-id renumbering) and the queries on it (inclusive range, floor lookup
 * by binary search, integrity check).
 */
module DataStore {
  import opened Common
  import opened Keyframes

  /** Blocks shorter than this take the synchronous paste path. */
  const SyncPasteLimit: nat := 50

  // ---------------------------------------------------------------------
  // Rows up to their frame id
  // ---------------------------------------------------------------------

  /** The rows with their frame ids blanked: what renumbering does not look at. */
  function Unnumbered(s: seq<Keyframe>): (u: seq<Keyframe>)
    ensures |u| == |s|
    ensures forall i :: 0 <= i < |s| ==> u[i] == s[i].(frameId := 0)
  {
    seq(|s|, i requires 0 <= i < |s| => s[i].(frameId := 0))
  }

  /** Renumbering depends on the rows' content only. */
  lemma RenumberByContent(x: seq<Keyframe>, y: seq<Keyframe>)
    requires Unnumbered(x) == Unnumbered(y)
    ensures Renumber(x) == Renumber(y)
  {
    assert |x| == |Unnumbered(x)| == |y|;
    forall i | 0 <= i < |x| ensures Renumber(x)[i] == Renumber(y)[i] {
      assert Unnumbered(x)[i] == Unnumbered(y)[i];
    }
  }

  lemma UnnumberedConcat(a: seq<Keyframe>, b: seq<Keyframe>)
    ensures Unnumbered(a + b) == Unnumbered(a) + Unnumbered(b)
  {
  }

  lemma UnnumberedRenumber(s: seq<Keyframe>)
    ensures Unnumbered(Renumber(s)) == Unnumbered(s)
  {
  }

  lemma {:induction false} UnnumberedBefore(s: seq<Keyframe>, v: real)
    ensures Unnumbered(Before(s, v)) == Before(Unnumbered(s), v)
  {
    if s != [] {
      UnnumberedBefore(s[1..], v);
      assert Unnumbered(s)[1..] == Unnumbered(s[1..]);
      UnnumberedConcat([s[0]], Before(s[1..], v));
    }
  }

  lemma {:induction false} UnnumberedAfter(s: seq<Keyframe>, v: real)
    ensures Unnumbered(After(s, v)) == After(Unnumbered(s), v)
  {
    if s != [] {
      UnnumberedAfter(s[1..], v);
      assert Unnumbered(s)[1..] == Unnumbered(s[1..]);
      UnnumberedConcat([s[0]], After(s[1..], v));
    }
  }

  lemma {:induction false} UnnumberedOutside(s: seq<Keyframe>, lo: real, hi: real)
    ensures Unnumbered(Outside(s, lo, hi)) == Outside(Unnumbered(s), lo, hi)
  {
    if s != [] {
      UnnumberedOutside(s[1..], lo, hi);
      assert Unnumbered(s)[1..] == Unnumbered(s[1..]);
      UnnumberedConcat([s[0]], Outside(s[1..], lo, hi));
    }
  }

  // ---------------------------------------------------------------------
  // Filters over concatenations
  // ---------------------------------------------------------------------

  lemma {:induction false} BeforeConcat(a: seq<Keyframe>, b: seq<Keyframe>, v: real)
    ensures Before(a + b, v) == Before(a, v) + Before(b, v)
  {
    if a == [] {
      assert a + b == b;
    } else {
      var c := a + b;
      assert c != [] && c[0] == a[0] && c[1..] == a[1..] + b;
      BeforeConcat(a[1..], b, v);
      var rest := Before(a[1..] + b, v);
      assert rest == Before(a[1..], v) + Before(b, v);
      assert Before(c, v) == (if !(c[0].time < v) then rest else [a[0]] + rest);
      assert Before(a, v) == (if !(a[0].time < v) then Before(a[1..], v) else [a[0]] + Before(a[1..], v));
      assert [a[0]] + rest == ([a[0]] + Before(a[1..], v)) + Before(b, v);
    }
  }

  lemma {:induction false} AfterConcat(a: seq<Keyframe>, b: seq<Keyframe>, v: real)
    ensures After(a + b, v) == After(a, v) + After(b, v)
  {
    if a == [] {
      assert a + b == b;
    } else {
      var c := a + b;
      assert c != [] && c[0] == a[0] && c[1..] == a[1..] + b;
      AfterConcat(a[1..], b, v);
      var rest := After(a[1..] + b, v);
      assert rest == After(a[1..], v) + After(b, v);
      assert After(c, v) == (if !(c[0].time > v) then rest else [a[0]] + rest);
      assert After(a, v) == (if !(a[0].time > v) then After(a[1..], v) else [a[0]] + After(a[1..], v));
      assert [a[0]] + rest == ([a[0]] + After(a[1..], v)) + After(b, v);
    }
  }

  lemma {:induction false} OutsideConcat(a: seq<Keyframe>, b: seq<Keyframe>, lo: real, hi: real)
    ensures Outside(a + b, lo, hi) == Outside(a, lo, hi) + Outside(b, lo, hi)
  {
    if a == [] {
      assert a + b == b;
    } else {
      var c := a + b;
      assert c != [] && c[0] == a[0] && c[1..] == a[1..] + b;
      OutsideConcat(a[1..], b, lo, hi);
      var rest := Outside(a[1..] + b, lo, hi);
      assert rest == Outside(a[1..], lo, hi) + Outside(b, lo, hi);
      assert Outside(c, lo, hi) == (if lo <= c[0].time <= hi then rest else [a[0]] + rest);
      assert Outside(a, lo, hi) == (if lo <= a[0].time <= hi then Outside(a[1..], lo, hi) else [a[0]] + Outside(a[1..], lo, hi));
      assert [a[0]] + rest == ([a[0]] + Outside(a[1..], lo, hi)) + Outside(b, lo, hi);
    }
  }

  lemma {:induction false} BeforeKeepsAll(s: seq<Keyframe>, v: real)
    requires AllBefore(s, v)
    ensures Before(s, v) == s
  {
    if s != [] { BeforeKeepsAll(s[1..], v); HeadSplit(s, []); }
  }

  lemma {:induction false} AfterKeepsAll(s: seq<Keyframe>, v: real)
    requires AllAfter(s, v)
    ensures After(s, v) == s
  {
    if s != [] { AfterKeepsAll(s[1..], v); HeadSplit(s, []); }
  }

  lemma {:induction false} AfterKeepsNone(s: seq<Keyframe>, v: real)
    requires AllUpTo(s, v)
    ensures After(s, v) == []
  {
    if s != [] { AfterKeepsNone(s[1..], v); }
  }

  lemma {:induction false} OutsideKeepsNone(s: seq<Keyframe>, lo: real, hi: real)
    requires AllFrom(s, lo) && AllUpTo(s, hi)
    ensures Outside(s, lo, hi) == []
  {
    if s != [] { OutsideKeepsNone(s[1..], lo, hi); }
  }

  lemma RenumberSorted(s: seq<Keyframe>)
    requires SortedByTime(s)
    ensures SortedByTime(Renumber(s))
  {
  }

  lemma {:induction false} OutsideSorted(s: seq<Keyframe>, lo: real, hi: real)
    requires SortedByTime(s)
    ensures SortedByTime(Outside(s, lo, hi))
  {
    if s != [] {
      SortedTail(s);
      OutsideSorted(s[1..], lo, hi);
      OutsideFrom(s[1..], lo, hi, s[0].time);
      if !(lo <= s[0].time <= hi) { SortedCons(s[0], Outside(s[1..], lo, hi)); }
    }
  }

  lemma {:induction false} OutsideFrom(s: seq<Keyframe>, lo: real, hi: real, v: real)
    requires AllFrom(s, v)
    ensures AllFrom(Outside(s, lo, hi), v)
  {
    if s != [] { OutsideFrom(s[1..], lo, hi, v); }
  }

  // ---------------------------------------------------------------------
  // get_segment
  // ---------------------------------------------------------------------

  /**
   * The segment [lo, hi] is exactly the rows whose time lies in it, in table
   * order; an empty table gives an empty segment.
   */
  lemma {:induction false} SegmentExact(s: seq<Keyframe>, lo: real, hi: real, k: Keyframe)
    ensures k in Within(s, lo, hi) <==> k in s && lo <= k.time <= hi
    ensures s == [] ==> Within(s, lo, hi) == []
  {
    if s != [] {
      SegmentExact(s[1..], lo, hi, k);
      assert k in s <==> k == s[0] || k in s[1..] by { HeadSplit(s, []); }
    }
  }

  // ---------------------------------------------------------------------
  // paste_df
  // ---------------------------------------------------------------------

  /** ins is d moved in time as one piece: same rows, same gaps. */
  ghost predicate ShiftOf(ins: seq<Keyframe>, d: seq<Keyframe>)
  {
    |ins| == |d| &&
    (forall i :: 0 <= i < |d| ==> ins[i].(time := 0.0) == d[i].(time := 0.0)) &&
    (forall i :: 0 <= i < |d| ==> ins[i].time - ins[0].time == d[i].time - d[0].time)
  }

  /**
   * The block as pasted: the synchronous path sorts it and moves its earliest
   * row to at_ms; the asynchronous path moves row 0, as given, to at_ms.
   */
  function PasteBlock(at: real, d: seq<Keyframe>): (ins: seq<Keyframe>)
    requires d != []
    ensures |ins| == |d| && ins[0].time == at
    ensures |d| < SyncPasteLimit ==> ShiftOf(ins, SortByTime(d)) && SortedByTime(ins)
    ensures |d| >= SyncPasteLimit ==> ShiftOf(ins, d)
  {
    if |d| < SyncPasteLimit then
      var sorted := SortByTime(d);
      assert SortedByTime(Shift(sorted, at - sorted[0].time)) by { ShiftKeepsGaps(sorted, at - sorted[0].time); }
      Shift(sorted, at - sorted[0].time)
    else Shift(d, at - d[0].time)
  }

  /** On an already sorted block the two paths agree. */
  lemma PasteModesAgree(at: real, d: seq<Keyframe>)
    requires d != [] && SortedByTime(d)
    ensures PasteBlock(at, d) == Shift(d, at - d[0].time)
  {
    if |d| < SyncPasteLimit {
      var sorted := SortByTime(d);
      assert PasteBlock(at, d) == Shift(sorted, at - sorted[0].time);
      SortOfSorted(d);
    }
  }

  /**
   * Existing rows in [min, max] of the pasted block are dropped, the block
   * is added, and the table is sorted and renumbered.
   */
  function Overwrite(main: seq<Keyframe>, ins: seq<Keyframe>): (r: seq<Keyframe>)
    requires ins != []
    ensures |r| == |Outside(main, MinTime(ins), MaxTime(ins))| + |ins|
    ensures SortedByTime(r) && NumberedFromOne(r)
  {
    var merged := SortByTime(Outside(main, MinTime(ins), MaxTime(ins)) + ins);
    RenumberNumbers(merged);
    Renumber(merged)
  }

  /** The table after `paste_df(at_ms, d)`; an empty block changes nothing. */
  function Paste(main: seq<Keyframe>, at: real, d: seq<Keyframe>): seq<Keyframe>
  {
    if d == [] then main else Overwrite(main, PasteBlock(at, d))
  }

  lemma SortedMinMax(s: seq<Keyframe>)
    requires s != [] && SortedByTime(s)
    ensures MinTime(s) == s[0].time && MaxTime(s) == s[|s| - 1].time
  {
  }

  /**
   * On a sorted table a paste keeps, unchanged up to their ids, the rows
   * before the block's first time, then the block in time order, then the
   * rows after its last time.
   */
  lemma PasteLayout(main: seq<Keyframe>, ins: seq<Keyframe>)
    requires SortedByTime(main) && ins != []
    ensures var lo, hi := MinTime(ins), MaxTime(ins);
      Overwrite(main, ins) == Renumber(Before(main, lo) + SortByTime(ins) + After(main, hi))
  {
    MergeLayout(main, ins, MinTime(ins), MaxTime(ins));
  }

  lemma MergeLayout(main: seq<Keyframe>, ins: seq<Keyframe>, lo: real, hi: real)
    requires SortedByTime(main) && ins != [] && lo == MinTime(ins) && hi == MaxTime(ins)
    ensures SortByTime(Outside(main, lo, hi) + ins) == Before(main, lo) + SortByTime(ins) + After(main, hi)
  {
    assert lo <= hi by { assert lo <= ins[0].time <= hi; }
    SortedSplit(main, lo, hi);
    SelectionsSorted(main, lo, hi);
    MergePieces(Before(main, lo), After(main, hi), ins, lo, hi);
  }

  lemma MergePieces(b: seq<Keyframe>, a: seq<Keyframe>, ins: seq<Keyframe>, lo: real, hi: real)
    requires SortedByTime(b) && SortedByTime(a) && lo <= hi
    requires AllBefore(b, lo) && AllAfter(a, hi) && AllFrom(ins, lo) && AllUpTo(ins, hi)
    ensures SortByTime((b + a) + ins) == b + SortByTime(ins) + a
  {
    PrefixStep(b, a, ins, lo, hi);
    SortMovesLaterSuffix(a, ins, hi);
    Regroup(b, a, ins, SortByTime(ins));
  }

  /** The rows before lo stay in front when the rest is sorted. */
  lemma PrefixStep(b: seq<Keyframe>, a: seq<Keyframe>, ins: seq<Keyframe>, lo: real, hi: real)
    requires SortedByTime(b) && AllBefore(b, lo) && AllFrom(ins, lo)
    requires lo <= hi && AllAfter(a, hi)
    ensures SortByTime(b + (a + ins)) == b + SortByTime(a + ins)
  {
    assert AllFrom(a, lo);
    FromJoin(a, ins, lo);
    SortKeepsEarlierPrefix(b, a + ins, lo);
  }

  lemma Regroup(b: seq<Keyframe>, a: seq<Keyframe>, ins: seq<Keyframe>, s: seq<Keyframe>)
    ensures (b + a) + ins == b + (a + ins)
    ensures b + (s + a) == b + s + a
  {
  }

  lemma FromJoin(a: seq<Keyframe>, t: seq<Keyframe>, v: real)
    requires AllFrom(a, v) && AllFrom(t, v)
    ensures AllFrom(a + t, v)
  {
  }

  // ---------------------------------------------------------------------
  // delete_segment
  // ---------------------------------------------------------------------

  /**
   * The table after `delete_segment(lo, hi)`: the rows in [lo, hi] go, the
   * others keep their times, and ids are renumbered.  (On an empty table
   * this is the empty table the source leaves alone.)
   */
  function Delete(main: seq<Keyframe>, lo: real, hi: real): seq<Keyframe>
  {
    Renumber(Outside(main, lo, hi))
  }

  /**
   * No remaining time moves, exactly the rows outside [lo, hi] remain, and a
   * sorted table stays sorted and is numbered 1..n.
   */
  lemma DeleteKeepsTimes(main: seq<Keyframe>, lo: real, hi: real)
    ensures Unnumbered(Delete(main, lo, hi)) == Unnumbered(Outside(main, lo, hi))
    ensures Times(Delete(main, lo, hi)) == Times(Outside(main, lo, hi))
    ensures NumberedFromOne(Delete(main, lo, hi))
    ensures SortedByTime(main) ==> SortedByTime(Delete(main, lo, hi))
    ensures SortedByTime(main) && lo <= hi ==> Delete(main, lo, hi) == Renumber(Before(main, lo) + After(main, hi))
  {
    UnnumberedRenumber(Outside(main, lo, hi));
    RenumberNumbers(Outside(main, lo, hi));
    if SortedByTime(main) {
      OutsideSorted(main, lo, hi);
      if lo <= hi { SortedSplit(main, lo, hi); }
    }
  }

  lemma {:induction false} WithinEmpty(s: seq<Keyframe>, lo: real, hi: real)
    ensures Within(s, lo, hi) == [] <==> forall i :: 0 <= i < |s| ==> s[i].time < lo || s[i].time > hi
  {
    if s != [] { WithinEmpty(s[1..], lo, hi); }
  }

  lemma {:induction false} OutsideOfNone(s: seq<Keyframe>, lo: real, hi: real)
    requires forall i :: 0 <= i < |s| ==> s[i].time < lo || s[i].time > hi
    ensures Outside(s, lo, hi) == s
  {
    if s != [] { OutsideOfNone(s[1..], lo, hi); HeadSplit(s, []); }
  }

  /** Deleting a range that holds no row leaves a numbered table as it is. */
  lemma DeleteNothing(s: seq<Keyframe>, lo: real, hi: real)
    requires NumberedFromOne(s) && Within(s, lo, hi) == []
    ensures Delete(s, lo, hi) == s
  {
    WithinEmpty(s, lo, hi);
    OutsideOfNone(s, lo, hi);
    RenumberOfNumbered(s);
  }

  // ---------------------------------------------------------------------
  // Round trips
  // ---------------------------------------------------------------------

  lemma SplitPieces(x: seq<Keyframe>, lo: real, hi: real)
    requires SortedByTime(x) && Within(x, lo, hi) != []
    ensures lo <= hi
    ensures SortedByTime(Within(x, lo, hi)) && SortedByTime(Before(x, lo)) && SortedByTime(After(x, hi))
    ensures x == Before(x, lo) + Within(x, lo, hi) + After(x, hi)
    ensures Outside(x, lo, hi) == Before(x, lo) + After(x, hi)
  {
    var w := Within(x, lo, hi);
    assert lo <= w[0].time <= hi;
    SortedSplit(x, lo, hi);
    SelectionsSorted(x, lo, hi);
  }

  /**
   * The rows of Renumber(b + a) before lo and after hi are b and a again,
   * up to their ids, when b lies before lo and a after hi.
   */
  lemma RenumberedPieces(b: seq<Keyframe>, a: seq<Keyframe>, lo: real, hi: real)
    requires AllBefore(b, lo) && AllAfter(a, hi) && lo <= hi
    ensures Unnumbered(Before(Renumber(b + a), lo)) == Unnumbered(b)
    ensures Unnumbered(After(Renumber(b + a), hi)) == Unnumbered(a)
  {
    var d := Renumber(b + a);
    var ub, ua := Unnumbered(b), Unnumbered(a);
    UnnumberedBefore(d, lo);
    UnnumberedAfter(d, hi);
    UnnumberedRenumber(b + a);
    UnnumberedConcat(b, a);
    BeforeConcat(ub, ua, lo);
    AfterConcat(ub, ua, hi);
    BeforeKeepsAll(ub, lo);
    NoneBefore(ua, lo);
    AfterKeepsNone(ub, hi);
    AfterKeepsAll(ua, hi);
  }

  /**
   * Deleting [lo, hi] and pasting the deleted rows back at their earliest
   * time restores a sorted, numbered table exactly.
   */
  lemma RestoreAfterDelete(x: seq<Keyframe>, lo: real, hi: real)
    requires SortedByTime(x) && NumberedFromOne(x) && Within(x, lo, hi) != []
    ensures Paste(Delete(x, lo, hi), MinTime(Within(x, lo, hi)), Within(x, lo, hi)) == x
  {
    var w := Within(x, lo, hi);
    var b, a := Before(x, lo), After(x, hi);
    SplitPieces(x, lo, hi);
    SortedMinMax(w);
    var lo', hi' := w[0].time, w[|w| - 1].time;
    assert lo <= lo' && hi' <= hi;
    PasteModesAgree(lo', w);
    assert Shift(w, lo' - w[0].time) == w;
    var d := Delete(x, lo, hi);
    DeleteKeepsTimes(x, lo, hi);
    PasteLayout(d, w);
    SortOfSorted(w);
    var y := Before(d, lo') + w + After(d, hi');
    assert Paste(d, lo', w) == Renumber(y);
    assert d == Renumber(b + a);
    RenumberedPieces(b, a, lo', hi');
    UnnumberedConcat(Before(d, lo') + w, After(d, hi'));
    UnnumberedConcat(Before(d, lo'), w);
    UnnumberedConcat(b + w, a);
    UnnumberedConcat(b, w);
    RenumberByContent(y, x);
    RenumberOfNumbered(x);
  }

  /**
   * Deleting the span of a block just pasted removes the block and nothing
   * else: the result is what deleting that span from the table before the
   * paste gives.
   */
  lemma DeleteAfterPaste(y: seq<Keyframe>, ins: seq<Keyframe>)
    requires SortedByTime(y) && ins != []
    ensures var lo, hi := MinTime(ins), MaxTime(ins);
      Delete(Overwrite(y, ins), lo, hi) == Delete(y, lo, hi)
  {
    var lo, hi := MinTime(ins), MaxTime(ins);
    var b, a, s := Before(y, lo), After(y, hi), SortByTime(ins);
    assert lo <= hi by { assert lo <= ins[0].time <= hi; }
    PasteLayout(y, ins);
    var z := b + s + a;
    var p := Renumber(z);
    assert Overwrite(y, ins) == p;
    SortBounds(ins, lo, hi);
    OutsideOfLayout(b, s, a, lo, hi);
    SortedSplit(y, lo, hi);
    assert Outside(y, lo, hi) == b + a;
    UnnumberedOutside(p, lo, hi);
    UnnumberedOutside(z, lo, hi);
    UnnumberedRenumber(z);
    assert Unnumbered(Outside(p, lo, hi)) == Unnumbered(b + a);
    RenumberByContent(Outside(p, lo, hi), b + a);
  }

  lemma OutsideOfLayout(b: seq<Keyframe>, s: seq<Keyframe>, a: seq<Keyframe>, lo: real, hi: real)
    requires AllBefore(b, lo) && AllFrom(s, lo) && AllUpTo(s, hi) && AllAfter(a, hi)
    ensures Outside(b + s + a, lo, hi) == b + a
  {
    OutsideConcat(b + s, a, lo, hi);
    OutsideConcat(b, s, lo, hi);
    assert forall i :: 0 <= i < |b| ==> b[i].time < lo || b[i].time > hi;
    OutsideOfNone(b, lo, hi);
    assert forall i :: 0 <= i < |a| ==> a[i].time < lo || a[i].time > hi;
    OutsideOfNone(a, lo, hi);
    OutsideKeepsNone(s, lo, hi);
    assert Outside(b + s, lo, hi) == b + [] == b;
  }

  // ---------------------------------------------------------------------
  // get_frame_index_at_ms / get_frame_at_ms
  // ---------------------------------------------------------------------

  /** `searchsorted(times, t, 'right') - 1`, or None before the first row or on an empty table. */
  function FrameIndexAt(s: seq<Keyframe>, t: real): (r: Option<nat>)
    ensures r.Some? ==> r.value < |s|
  {
    if s == [] then None
    else
      var k := SearchRight(Times(s), t);
      if k >= 1 then Some(k - 1) else None
  }

  function FrameAtMs(s: seq<Keyframe>, t: real): (r: Option<Keyframe>)
    ensures r.Some? <==> FrameIndexAt(s, t).Some?
    ensures r.Some? ==> r.value == s[FrameIndexAt(s, t).value]
  {
    match FrameIndexAt(s, t)
    case None => None
    case Some(i) => Some(s[i])
  }

  /**
   * On a sorted table the lookup finds the last row at or before t, and
   * finds none exactly when the table is empty or starts after t.
   */
  lemma FrameIndexIsFloor(s: seq<Keyframe>, t: real)
    requires SortedByTime(s)
    ensures FrameIndexAt(s, t).None? <==> s == [] || t < s[0].time
    ensures FrameIndexAt(s, t).Some? ==>
      var i := FrameIndexAt(s, t).value;
      s[i].time <= t && (i + 1 == |s| || s[i + 1].time > t)
  {
    SortedTimes(s);
  }

  // ---------------------------------------------------------------------
  // validate_timeline_integrity
  // ---------------------------------------------------------------------

  /** What the integrity check reports. */
  datatype Issue =
    | EmptyTimeline
    | DuplicateTimes
    | ColourOutOfRange(channel: nat, component: Component)
    | FunctionOutOfRange(channel: nat)

  predicate HasDuplicateTime(s: seq<Keyframe>)
  {
    exists i, j :: 0 <= i < j < |s| && s[i].time == s[j].time
  }

  predicate ColourColumnOk(s: seq<Keyframe>, c: nat, k: Component)
    requires AllWellFormed(s) && c < NumChannels
  {
    forall r :: 0 <= r < |s| ==> 0 <= Value(s[r].channels[c], k) <= 15
  }

  predicate FunctionColumnOk(s: seq<Keyframe>, c: nat)
    requires AllWellFormed(s) && c < NumChannels
  {
    forall r :: 0 <= r < |s| ==> 0 <= s[r].channels[c].fn <= 3
  }

  /** The reports for channel c: red, green, blue, then function. */
  function ChannelIssues(s: seq<Keyframe>, c: nat): seq<Issue>
    requires AllWellFormed(s) && c < NumChannels
  {
    (if ColourColumnOk(s, c, Red) then [] else [ColourOutOfRange(c, Red)]) +
    (if ColourColumnOk(s, c, Green) then [] else [ColourOutOfRange(c, Green)]) +
    (if ColourColumnOk(s, c, Blue) then [] else [ColourOutOfRange(c, Blue)]) +
    (if FunctionColumnOk(s, c) then [] else [FunctionOutOfRange(c)])
  }

  function IssuesUpTo(s: seq<Keyframe>, n: nat): seq<Issue>
    requires AllWellFormed(s) && n <= NumChannels
  {
    if n == 0 then [] else IssuesUpTo(s, n - 1) + ChannelIssues(s, n - 1)
  }

  /** A channel value the editor can store: 4-bit colours and a function code 0..3. */
  predicate InRange(ch: Channel)
  {
    0 <= ch.red <= 15 && 0 <= ch.green <= 15 && 0 <= ch.blue <= 15 && 0 <= ch.fn <= 3
  }

  lemma {:induction false} IssuesUpToEmpty(s: seq<Keyframe>, n: nat)
    requires AllWellFormed(s) && n <= NumChannels
    ensures IssuesUpTo(s, n) == [] <==> forall r, c :: 0 <= r < |s| && 0 <= c < n ==> InRange(s[r].channels[c])
  {
    if n > 0 {
      IssuesUpToEmpty(s, n - 1);
      var c := n - 1;
      if ChannelIssues(s, c) == [] {
        assert forall r :: 0 <= r < |s| ==> InRange(s[r].channels[c]);
      } else if forall r :: 0 <= r < |s| ==> InRange(s[r].channels[c]) {
        assert ColourColumnOk(s, c, Red) && ColourColumnOk(s, c, Green) && ColourColumnOk(s, c, Blue);
        assert FunctionColumnOk(s, c);
      }
    }
  }

  /** The verdict and the reports of `validate_timeline_integrity`. */
  datatype Verdict = Verdict(ok: bool, issues: seq<Issue>)

  function Validation(s: seq<Keyframe>): Verdict
    requires AllWellFormed(s)
  {
    if s == [] then Verdict(false, [EmptyTimeline])
    else
      var issues := (if HasDuplicateTime(s) then [DuplicateTimes] else []) + IssuesUpTo(s, NumChannels);
      Verdict(issues == [], issues)
  }

  /**
   * The check passes exactly on a non-empty table with distinct times and
   * every channel value in range; a failed check always says why.
   */
  lemma ValidationIff(s: seq<Keyframe>)
    requires AllWellFormed(s)
    ensures Validation(s).ok <==>
      s != [] && !HasDuplicateTime(s) &&
      forall r, c :: 0 <= r < |s| && 0 <= c < NumChannels ==> InRange(s[r].channels[c])
    ensures !Validation(s).ok ==> Validation(s).issues != []
  {
    IssuesUpToEmpty(s, NumChannels);
  }

  /** The editor's own tables, sorted without repeated times, have no duplicate. */
  lemma StrictlySortedHasNoDuplicate(s: seq<Keyframe>)
    requires StrictlySorted(s)
    ensures !HasDuplicateTime(s)
  {
  }

  // ---------------------------------------------------------------------
  // The store
  // ---------------------------------------------------------------------

  class DataManager {
    var frames: seq<Keyframe>
    /**
     * Whether the table has its columns.  A new manager holds
     * `pd.DataFrame()`, which has none, so a paste into it fails on the
     * missing 'frame_time_ms' column; a table that had rows keeps its
     * columns when they are all deleted.
     */
    var hasColumns: bool

    /**
     * Every table the store holds is sorted by time and has ten channels per
     * row; paste and delete also number it 1..n (a table set directly, as a
     * new edit does, need not be).  Only a table with columns holds rows.
     */
    ghost predicate Valid()
      reads this
    {
      SortedByTime(frames) && AllWellFormed(frames) && (frames != [] ==> hasColumns)
    }

    constructor()
      ensures Valid() && frames == [] && !hasColumns
    {
      frames := [];
      hasColumns := false;
    }

    /** `frame_id = 1..n`; nothing else about any row changes. */
    method ReassignFrameIds()
      modifies this
      ensures NumberedFromOne(frames) && Unnumbered(frames) == Unnumbered(old(frames))
      ensures Times(frames) == Times(old(frames)) && hasColumns == old(hasColumns)
    {
      RenumberNumbers(frames);
      UnnumberedRenumber(frames);
      frames := Renumber(frames);
    }

    /**
     * `paste_df`: False and no change for an empty block; a block pasted
     * into a table without columns raises KeyError (on the synchronous
     * path, and again on the synchronous fallback of the asynchronous one)
     * and changes nothing.
     */
    method PasteFrames(at: real, d: seq<Keyframe>) returns (ok: bool, raised: bool)
      requires Valid() && AllWellFormed(d)
      modifies this
      ensures Valid() && hasColumns == old(hasColumns)
      ensures raised <==> d != [] && !old(hasColumns)
      ensures raised ==> !ok && frames == old(frames)
      ensures !raised ==> (ok <==> d != []) && frames == Paste(old(frames), at, d)
      ensures !raised && d != [] ==> NumberedFromOne(frames)
    {
      if d == [] {
        return false, false;
      }
      if !hasColumns {
        return false, true;
      }
      var ins := PasteBlock(at, d);
      var lo, hi := MinTime(ins), MaxTime(ins);
      frames := Outside(frames, lo, hi);
      frames := frames + ins;
      frames := SortByTime(frames);
      ReassignFrameIds();
      RenumberOfUnnumbered(frames, SortByTime(Outside(old(frames), lo, hi) + ins));
      ok, raised := true, false;
      assert AllWellFormed(frames) by { PasteWellFormed(old(frames), at, d); }
    }

    /** `delete_segment`: False and no change on an empty table. */
    method DeleteSegment(lo: real, hi: real) returns (ok: bool)
      requires Valid()
      modifies this
      ensures Valid() && NumberedFromOne(frames) && hasColumns == old(hasColumns)
      ensures ok <==> old(frames) != []
      ensures frames == Delete(old(frames), lo, hi)
    {
      if frames == [] {
        return false;
      }
      DeleteKeepsTimes(frames, lo, hi);
      OutsideWellFormed(frames, lo, hi);
      frames := Outside(frames, lo, hi);
      frames := Renumber(frames);
      ok := true;
    }

    /** `get_frame_index_at_ms` by binary search on the time column. */
    method GetFrameIndexAt(t: real) returns (r: Option<nat>)
      requires Valid()
      ensures r == FrameIndexAt(frames, t)
    {
      if frames == [] {
        return None;
      }
      SortedTimes(frames);
      var k := BisectRight(Times(frames), t);
      if k >= 1 {
        r := Some(k - 1);
      } else {
        r := None;
      }
    }

    method GetFrameAt(t: real) returns (r: Option<Keyframe>)
      requires Valid()
      ensures r == FrameAtMs(frames, t)
    {
      var i := GetFrameIndexAt(t);
      if i.Some? {
        r := Some(frames[i.value]);
      } else {
        r := None;
      }
    }

    /** `validate_timeline_integrity`: the per-channel loop collects the reports. */
    method ValidateTimelineIntegrity() returns (v: Verdict)
      requires AllWellFormed(frames)
      ensures v == Validation(frames)
    {
      if frames == [] {
        return Verdict(false, [EmptyTimeline]);
      }
      var issues: seq<Issue> := [];
      if HasDuplicateTime(frames) {
        issues := [DuplicateTimes];
      }
      ghost var head := issues;
      for c := 0 to NumChannels
        invariant issues == head + IssuesUpTo(frames, c)
      {
        issues := issues + ChannelIssues(frames, c);
      }
      v := Verdict(issues == [], issues);
    }
  }

  lemma RenumberOfUnnumbered(x: seq<Keyframe>, y: seq<Keyframe>)
    requires NumberedFromOne(x) && Unnumbered(x) == Unnumbered(Renumber(y))
    ensures x == Renumber(y)
  {
    RenumberNumbers(y);
    RenumberByContent(x, Renumber(y));
    RenumberOfNumbered(x);
    RenumberOfNumbered(Renumber(y));
  }

  lemma {:induction false} OutsideWellFormed(s: seq<Keyframe>, lo: real, hi: real)
    requires AllWellFormed(s)
    ensures AllWellFormed(Outside(s, lo, hi))
  {
    if s != [] { OutsideWellFormed(s[1..], lo, hi); }
  }

  lemma {:induction false} WithinWellFormed(s: seq<Keyframe>, lo: real, hi: real)
    requires AllWellFormed(s)
    ensures AllWellFormed(Within(s, lo, hi))
  {
    if s != [] { WithinWellFormed(s[1..], lo, hi); }
  }

  lemma PasteWellFormed(main: seq<Keyframe>, at: real, d: seq<Keyframe>)
    requires AllWellFormed(main) && AllWellFormed(d)
    ensures AllWellFormed(Paste(main, at, d))
  {
    if d != [] {
      var ins := PasteBlock(at, d);
      var lo, hi := MinTime(ins), MaxTime(ins);
      assert AllWellFormed(ins) by {
        if |d| < SyncPasteLimit { SortKeepsWellFormed(d); }
      }
      OutsideWellFormed(main, lo, hi);
      var m := Outside(main, lo, hi) + ins;
      assert AllWellFormed(m);
      SortKeepsWellFormed(m);
      RenumberKeepsWellFormed(SortByTime(m));
    }
  }

  lemma RenumberKeepsWellFormed(s: seq<Keyframe>)
    requires AllWellFormed(s)
    ensures AllWellFormed(Renumber(s))
  {
  }

  lemma {:induction false} InsertKeepsWellFormed(x: Keyframe, s: seq<Keyframe>)
    requires WellFormed(x) && AllWellFormed(s)
    ensures AllWellFormed(Insert(x, s))
  {
    if s != [] && x.time > s[0].time { InsertKeepsWellFormed(x, s[1..]); }
  }

  lemma {:induction false} SortKeepsWellFormed(s: seq<Keyframe>)
    requires AllWellFormed(s)
    ensures AllWellFormed(SortByTime(s))
  {
    if s != [] {
      SortKeepsWellFormed(s[1..]);
      InsertKeepsWellFormed(s[0], SortByTime(s[1..]));
    }
  }
}
