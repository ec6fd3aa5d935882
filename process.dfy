/** What one call of InstanceProcess produces, as functions of the state at
    block start: which table and makeup gain each sample sees, the wet
    (shaped and mixed) samples, and the optional DC-blocked output. */
module Process {
  import opened Numerics
  import opened Params
  import opened Geometry
  import opened Curves
  import opened Shaper
  import opened DCBlock
  import opened Refresh

  /** The state a block starts from: the live parameters, the shared table
      and makeup gain, the table and makeup gain a rebuild would produce
      from the live parameters, the `update` flag and the instance's skip
      count. */
  datatype Block = Block(
    p: Params,
    table0: seq<real>,
    gain0: real,
    rebuilt: seq<real>,
    rebuiltGain: real,
    update: bool,
    skipcount: nat)
  {
    predicate Valid()
    {
      |table0| == TABLESIZE && |rebuilt| == TABLESIZE
    }

    /** The rebuilt table and gain are the ones MakeTable derives from the
        live parameters and the linear threshold th. */
    ghost predicate RebuildsFrom(m: Libm, th: real)
    {
      m.Sound() && p.Valid() && 0.0 < th <= 1.0 &&
      rebuilt == TableFor(m, p, th) && rebuiltGain == GainFor(m, p, th, gain0)
    }

    /** The table in use once sample i has passed the rebuild test: the
        rebuilt curve if a rebuild slot has come up, the old table otherwise. */
    function TableAt(i: int): (t: seq<real>)
      requires Valid()
      ensures |t| == TABLESIZE
    {
      if RebuiltBy(update, skipcount, i) then rebuilt else table0
    }

    function GainAt(i: int): real
    {
      if RebuiltBy(update, skipcount, i) then rebuiltGain else gain0
    }

    /** Output sample i before DC blocking, for dry input x. */
    function WetAt(x: real, i: int): real
      requires Valid()
    {
      Mix(p, WaveShape(p, TableAt(i), x), x, GainAt(i))
    }

    function Wet(xs: seq<real>): (ys: seq<real>)
      requires Valid()
      ensures |ys| == |xs|
    {
      seq(|xs|, i requires 0 <= i < |xs| => WetAt(xs[i], i))
    }

    /** The block's output: the wet samples, DC-blocked when dc is set. */
    function Output(w: nat, fs: FilterState, dc: bool, xs: seq<real>): (ys: seq<real>)
      requires Valid()
      ensures |ys| == |xs|
    {
      if dc then DCRun(w, fs, Wet(xs)).outs else Wet(xs)
    }

    /** The DC filter's state after the block. */
    function FilterAfter(w: nat, fs: FilterState, dc: bool, xs: seq<real>): FilterState
      requires Valid()
    {
      if dc then DCRun(w, fs, Wet(xs)).state else fs
    }
  }

  /** Appending one input sample appends one output sample and advances the
      filter by one DCFilter step; this is the per-sample body of the loop. */
  lemma OutputStep(blk: Block, w: nat, fs: FilterState, dc: bool, xs: seq<real>, x: real)
    requires blk.Valid()
    ensures var y := blk.WetAt(x, |xs|);
      var step := DCStep(w, blk.FilterAfter(w, fs, dc, xs), y);
      blk.Output(w, fs, dc, xs + [x]) == blk.Output(w, fs, dc, xs) + [if dc then step.out else y] &&
      blk.FilterAfter(w, fs, dc, xs + [x]) == (if dc then step.state else blk.FilterAfter(w, fs, dc, xs))
  {
    var ys := xs + [x];
    assert blk.Wet(ys) == blk.Wet(xs) + [blk.WetAt(x, |xs|)];
    assert blk.Wet(ys)[..|xs|] == blk.Wet(xs);
  }

  /** One sample y of the loop, produced from filter state f1 and leaving
      state f2, extends the block's output and filter state by xs[i]. */
  lemma OutputExtends(blk: Block, w: nat, fs0: FilterState, dc: bool, xs: seq<real>, i: nat,
                      y: real, f1: FilterState, f2: FilterState)
    requires blk.Valid() && i < |xs|
    requires f1 == blk.FilterAfter(w, fs0, dc, xs[..i])
    requires var wet := blk.WetAt(xs[i], i);
      var step := DCStep(w, f1, wet);
      y == (if dc then step.out else wet) && f2 == (if dc then step.state else f1)
    ensures blk.Output(w, fs0, dc, xs[..i + 1]) == blk.Output(w, fs0, dc, xs[..i]) + [y]
    ensures f2 == blk.FilterAfter(w, fs0, dc, xs[..i + 1])
  {
    OutputStep(blk, w, fs0, dc, xs[..i], xs[i]);
    assert xs[..i + 1] == xs[..i] + [xs[i]];
  }

  /** After a block whose update flag is set and which reaches its first
      rebuild slot, the table and makeup gain are those MakeTable derives
      from the live parameters; without the flag they are left alone. */
  lemma BlockEndState(blk: Block, m: Libm, th: real, n: nat)
    requires blk.Valid() && blk.RebuildsFrom(m, th)
    ensures blk.update && FirstRebuild(blk.skipcount) < n ==>
      blk.TableAt(n - 1) == TableFor(m, blk.p, th) &&
      blk.GainAt(n - 1) == GainFor(m, blk.p, th, blk.gain0)
    ensures !blk.update || n <= FirstRebuild(blk.skipcount) ==>
      blk.TableAt(n - 1) == blk.table0 && blk.GainAt(n - 1) == blk.gain0
    ensures SkipSamples <= n && blk.update ==> blk.TableAt(n - 1) == TableFor(m, blk.p, th)
  {
  }

  /** When the table was already built from the live parameters, rebuilds
      change nothing: every sample is shaped by that table and gain,
      whatever the update flag and skip count. */
  lemma SettledBlock(blk: Block, m: Libm, th: real, xs: seq<real>)
    requires blk.Valid() && blk.RebuildsFrom(m, th)
    requires blk.table0 == TableFor(m, blk.p, th)
    requires blk.gain0 == GainFor(m, blk.p, th, blk.gain0)
    ensures forall i :: 0 <= i < |xs| ==>
      blk.Wet(xs)[i] == Mix(blk.p, WaveShape(blk.p, blk.table0, xs[i]), xs[i], blk.gain0)
  {
  }

  /** Silence in, silence out: when the table at block start was built by
      MakeTable (from any valid parameters and threshold), every curve and
      every mix maps a zero input sample to a zero output sample. */
  lemma SilenceInSilenceOut(blk: Block, m: Libm, th: real, p0: Params, th0: real, xs: seq<real>)
    requires blk.Valid() && blk.RebuildsFrom(m, th) && p0.Valid() && 0.0 < th0 <= 1.0
    requires blk.table0 == TableFor(m, p0, th0)
    requires forall i :: 0 <= i < |xs| ==> xs[i] == 0.0
    ensures forall i :: 0 <= i < |xs| ==> blk.Wet(xs)[i] == 0.0
  {
    OriginIsSilent(m, p0, th0);
    OriginIsSilent(m, blk.p, th);
    assert Level(STEPS) == 0.0;
    forall i | 0 <= i < |xs|
      ensures blk.Wet(xs)[i] == 0.0
    {
      var t := blk.TableAt(i);
      InterpolateAtKnot(t, STEPS);
      assert PreGain(blk.p, 0.0) == 0.0;
      assert WaveShape(blk.p, t, 0.0) == 0.0;
    }
  }
}
