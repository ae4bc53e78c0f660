/**
 * Colour calibration between 4-bit hardware values and 8-bit display
 * values: a 16-entry forward table per colour component and a 256-entry
 * reverse table built from the green one.  The forward tables come from a
 * floating-point gamma curve, which is not modelled: they are handed in
 * as given tables of 16 bytes.
 */
module Calibration {
  import opened Common

  const LevelCount: nat := 16
  const ByteCount: nat := 256

  /** The three forward tables computed for one gamma and set of gains. */
  datatype Tables = Tables(r: seq<byte>, g: seq<byte>, b: seq<byte>)

  predicate TablesOk(t: Tables)
  {
    |t.r| == LevelCount && |t.g| == LevelCount && |t.b| == LevelCount
  }

  datatype Gains = Gains(r: real, g: real, b: real)

  const DefaultGamma: real := 2.2
  const DefaultGains: Gains := Gains(1.0, 0.7, 0.85)

  // ---------------------------------------------------------------------
  // The reverse table
  // ---------------------------------------------------------------------

  function Distance(table: seq<byte>, j: nat, target: int): nat
    requires j < |table|
  {
    if table[j] as int >= target then table[j] as int - target else target - table[j] as int
  }

  /** `argmin` over the first n entries: the earliest index of smallest distance. */
  function ClosestIn(table: seq<byte>, target: int, n: nat): (j: nat)
    requires 1 <= n <= |table|
    ensures j < n
  {
    if n == 1 then 0
    else
      var best := ClosestIn(table, target, n - 1);
      if Distance(table, n - 1, target) < Distance(table, best, target) then n - 1 else best
  }

  function Closest(table: seq<byte>, target: int): nat
    requires |table| == LevelCount
  {
    ClosestIn(table, target, LevelCount)
  }

  /** The earliest entry of least distance: nothing is closer, nothing before it is as close. */
  predicate FirstArgmin(table: seq<byte>, target: int, n: nat, j: nat)
    requires n <= |table|
  {
    j < n &&
    (forall k :: 0 <= k < n ==> Distance(table, j, target) <= Distance(table, k, target)) &&
    (forall k :: 0 <= k < j ==> Distance(table, j, target) < Distance(table, k, target))
  }

  lemma {:induction false} ClosestInIsFirstArgmin(table: seq<byte>, target: int, n: nat)
    requires 1 <= n <= |table|
    ensures FirstArgmin(table, target, n, ClosestIn(table, target, n))
  {
    if n > 1 {
      ClosestInIsFirstArgmin(table, target, n - 1);
    }
  }

  /** The first argmin is unique, so `Closest` is the only index with that property. */
  lemma ClosestIsTheFirstArgmin(table: seq<byte>, target: int, j: nat)
    requires |table| == LevelCount
    ensures FirstArgmin(table, target, LevelCount, j) <==> j == Closest(table, target)
  {
    ClosestInIsFirstArgmin(table, target, LevelCount);
  }

  /** Looking up a displayed value goes back to an entry that displays the same value. */
  lemma ClosestOfEntry(table: seq<byte>, j: nat)
    requires |table| == LevelCount && j < LevelCount
    ensures table[Closest(table, table[j] as int)] == table[j]
    ensures Closest(table, table[j] as int) <= j
  {
    ClosestInIsFirstArgmin(table, table[j] as int, LevelCount);
    assert Distance(table, j, table[j] as int) == 0;
  }

  /** `_generate_reverse_lut`: for each 8-bit value the closest 4-bit level. */
  method GenerateReverseLut(table: seq<byte>) returns (reverse: array<byte>)
    requires |table| == LevelCount
    ensures fresh(reverse) && reverse.Length == ByteCount
    ensures forall i :: 0 <= i < ByteCount ==> reverse[i] as int == Closest(table, i)
  {
    reverse := new byte[ByteCount](_ => 0);
    for i := 0 to ByteCount
      invariant forall k :: 0 <= k < i ==> reverse[k] as int == Closest(table, k)
    {
      reverse[i] := Closest(table, i) as byte;
    }
  }

  /** `to_display` on one value: the green entry; a negative index counts from the end, as numpy's does. */
  function ToDisplay(g: seq<byte>, v: int): (r: Option<byte>)
    requires |g| == LevelCount
    ensures r.Some? <==> -(LevelCount as int) <= v < LevelCount
    ensures 0 <= v < LevelCount ==> r == Some(g[v])
  {
    if 0 <= v < LevelCount then Some(g[v])
    else if -(LevelCount as int) <= v < 0 then Some(g[LevelCount + v])
    else None
  }

  // ---------------------------------------------------------------------
  // The calibration object
  // ---------------------------------------------------------------------

  class ColorCalibration {
    var gamma: real
    var gains: Gains
    var rLut: seq<byte>
    var gLut: seq<byte>
    var bLut: seq<byte>
    /** Written by `set_custom_lut` and read by nothing. */
    var displayLut: Option<seq<byte>>
    var reverseLut: array<byte>

    ghost predicate Valid()
      reads this, reverseLut
    {
      |rLut| == LevelCount && |gLut| == LevelCount && |bLut| == LevelCount &&
      reverseLut.Length == ByteCount &&
      forall i :: 0 <= i < ByteCount ==> reverseLut[i] as int == Closest(gLut, i)
    }

    /** The first initialisation: gamma 2.2, gains (1, 0.7, 0.85), and their tables. */
    constructor(t: Tables)
      requires TablesOk(t)
      ensures Valid() && gamma == DefaultGamma && gains == DefaultGains
      ensures rLut == t.r && gLut == t.g && bLut == t.b && displayLut == None
    {
      gamma := DefaultGamma;
      gains := DefaultGains;
      rLut, gLut, bLut := t.r, t.g, t.b;
      displayLut := None;
      var reverse := GenerateReverseLut(t.g);
      reverseLut := reverse;
    }

    /** `_regenerate_luts`, with the forward tables supplied. */
    method Regenerate(t: Tables)
      requires TablesOk(t)
      modifies this
      ensures Valid() && fresh(reverseLut)
      ensures rLut == t.r && gLut == t.g && bLut == t.b
      ensures gamma == old(gamma) && gains == old(gains) && displayLut == old(displayLut)
    {
      rLut, gLut, bLut := t.r, t.g, t.b;
      reverseLut := GenerateReverseLut(t.g);
    }

    method SetGains(r: real, g: real, b: real, t: Tables)
      requires TablesOk(t)
      modifies this
      ensures Valid() && gains == Gains(r, g, b) && gamma == old(gamma) && displayLut == old(displayLut)
      ensures rLut == t.r && gLut == t.g && bLut == t.b
    {
      gains := Gains(r, g, b);
      Regenerate(t);
    }

    /** `get_gains`: the gains last set. */
    function GetGains(): (r: Gains)
      reads this
      ensures r == gains
    {
      gains
    }

    method SetGamma(value: real, t: Tables)
      requires TablesOk(t)
      modifies this
      ensures Valid() && gamma == value && gains == old(gains) && displayLut == old(displayLut)
      ensures rLut == t.r && gLut == t.g && bLut == t.b
    {
      gamma := value;
      Regenerate(t);
    }

    /** `to_hardware` on one value: clipped to 0..255, then looked up in the reverse table. */
    function ToHardware(v: int): (r: nat)
      requires Valid()
      reads this, reverseLut
      ensures r < LevelCount
      ensures r == Closest(gLut, if v < 0 then 0 else if v > 255 then 255 else v)
    {
      var i := if v < 0 then 0 else if v > 255 then 255 else v;
      reverseLut[i] as nat
    }

    /**
     * `set_custom_lut`: refuses anything but 16 values; otherwise stores
     * the table where nothing reads it and rebuilds the reverse table,
     * still from the green table.
     */
    method SetCustomLut(lut: seq<byte>) returns (raised: bool)
      requires Valid()
      modifies this
      ensures Valid()
      ensures raised <==> |lut| != LevelCount
      ensures raised ==> displayLut == old(displayLut) && reverseLut == old(reverseLut)
      ensures !raised ==> displayLut == Some(lut) && fresh(reverseLut)
      ensures gamma == old(gamma) && gains == old(gains)
      ensures rLut == old(rLut) && gLut == old(gLut) && bLut == old(bLut)
    {
      if |lut| != LevelCount {
        return true;
      }
      displayLut := Some(lut);
      reverseLut := GenerateReverseLut(gLut);
      raised := false;
    }
  }

  /** Display then hardware gives back a level showing the same green value, for every level. */
  lemma HardwareOfDisplay(cal: ColorCalibration, v: nat)
    requires cal.Valid() && v < LevelCount
    ensures cal.gLut[cal.ToHardware(cal.gLut[v] as int)] == cal.gLut[v]
    ensures cal.ToHardware(cal.gLut[v] as int) <= v
  {
    ClosestOfEntry(cal.gLut, v);
  }

  /**
   * `ColorCalibration()`: the first call creates and initialises the one
   * instance; every later call returns it and leaves it as it is.
   */
  class Registry {
    var instance: ColorCalibration?

    constructor()
      ensures instance == null
    {
      instance := null;
    }

    method Obtain(t: Tables) returns (cal: ColorCalibration)
      requires TablesOk(t)
      requires instance != null ==> instance.Valid()
      modifies this
      ensures instance == cal && cal.Valid()
      ensures old(instance) != null ==> cal == old(instance)
      ensures old(instance) == null ==> fresh(cal) && cal.gamma == DefaultGamma && cal.gains == DefaultGains
    {
      if instance == null {
        instance := new ColorCalibration(t);
      }
      cal := instance;
    }
  }
}
