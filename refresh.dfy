/** The table-refresh policy of InstanceProcess: the `update` flag, the
    cached parameter copy and the skip counter that spaces rebuilds
    skipsamples apart. */
module Refresh {
  import opened Params

  /** skipsamples: samples between two table rebuilds while parameters differ. */
  const SkipSamples: int := 1000

  /** The `update` flag: some parameter the table depends on differs from the
      instance's cached copy. dcBlock is not compared. */
  predicate NeedsUpdate(live: Params, cached: Params): (update: bool)
    ensures live == cached ==> !update
    ensures live.param2 != cached.param2 ==> update
  {
    !(live.tableChoice == cached.tableChoice &&
      live.noiseFloor == cached.noiseFloor &&
      live.thresholdDb == cached.thresholdDb &&
      live.param1 == cached.param1 &&
      live.param2 == cached.param2 &&
      live.repeats == cached.repeats)
  }

  /** update is false exactly when the cached copy equals the live
      parameters in every field but dcBlock. */
  lemma NeedsUpdateIgnoresDCBlock(live: Params, cached: Params)
    ensures !NeedsUpdate(live, cached) <==> live.(dcBlock := cached.dcBlock) == cached
  {
  }

  /** The cached copy after InstanceProcess: type, threshold, noise floor,
      param1 and repeats are copied from the live parameters at block start;
      param2 and dcBlock are not. */
  function CacheAfterBlock(live: Params, cached: Params): Params
  {
    live.(dcBlock := cached.dcBlock, param2 := cached.param2)
  }

  /** The skip count's phase at sample i of a block that started with the
      given skip count. */
  function Phase(skipcount: nat, i: nat): int
  {
    (skipcount + i) % SkipSamples
  }

  /** Offset within a block of the first sample whose pre-increment skip
      count is a multiple of skipsamples: the first rebuild slot. */
  function FirstRebuild(skipcount: nat): (j: nat)
    ensures j < SkipSamples
    ensures Phase(skipcount, j) == 0
    ensures forall i: nat :: i < j ==> Phase(skipcount, i) != 0
  {
    var r := skipcount % SkipSamples;
    if r == 0 then 0
    else
      assert forall i: nat :: i < SkipSamples - r ==> Phase(skipcount, i) == r + i by {
        forall i: nat | i < SkipSamples - r
          ensures Phase(skipcount, i) == r + i
        {
          var q := skipcount / SkipSamples;
          assert skipcount + i == q * SkipSamples + (r + i);
        }
      }
      SkipSamples - r
  }

  /** Whether the table has been rebuilt by the end of sample i of a block
      that started with the given skip count. */
  predicate RebuiltBy(update: bool, skipcount: nat, i: int)
  {
    update && FirstRebuild(skipcount) <= i
  }

  /** The rebuild test `update && skipcount++ % skipsamples == 0` at sample i
      moves RebuiltBy from i-1 to i. */
  lemma RebuildStep(update: bool, skipcount: nat, i: nat)
    ensures RebuiltBy(update, skipcount, i) <==>
      (RebuiltBy(update, skipcount, i - 1) || (update && Phase(skipcount, i) == 0))
  {
  }

  /** While parameters differ, a block of at least skipsamples samples always
      rebuilds the table; a block that starts on a multiple of skipsamples
      rebuilds at its first sample, with no lag at all. */
  lemma RebuildLagBound(skipcount: nat, blockLen: nat)
    ensures SkipSamples <= blockLen ==> RebuiltBy(true, skipcount, blockLen - 1)
    ensures skipcount % SkipSamples == 0 ==> RebuiltBy(true, skipcount, 0)
  {
  }

  /** A change of any parameter but param2 can be lost: if the block ends
      before its first rebuild slot, the cached copy already equals the live
      parameters afterwards, so the next block with the same parameters does
      not update and the table keeps the old curve. */
  lemma ChangeCanBeLost(live: Params, cached: Params, skipcount: nat, blockLen: nat)
    requires NeedsUpdate(live, cached) && live.param2 == cached.param2
    requires blockLen <= FirstRebuild(skipcount)
    ensures !RebuiltBy(true, skipcount, blockLen - 1)
    ensures !NeedsUpdate(live, CacheAfterBlock(live, cached))
  {
  }

  /** Conversely, a param2 that differs from the cached copy is never copied
      back, so every later block keeps updating. */
  lemma Param2KeepsUpdating(live: Params, cached: Params)
    requires live.param2 != cached.param2
    ensures NeedsUpdate(live, CacheAfterBlock(live, cached))
  {
  }
}
