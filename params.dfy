/**
 * The parameter block of sasalib_t: algorithm selector, Shrake-Rupley
 * test-point count, Lee-Richards slice width and thread count, with the
 * validating setters and algorithm-gated getters of sasalib.c.
 */
module Params {

  /** sasalib_algorithm; the values index sasalib_alg_names. */
  const LeeRichards: int := 0
  const ShrakeRupley: int := 1

  const DefaultSrPoints: int := 100
  const DefaultLrDelta: real := 0.25
  /** Exclusive upper bound on the slice width. */
  const LrDeltaBound: real := 5.01

  predicate KnownAlgorithm(alg: int)
  {
    alg == ShrakeRupley || alg == LeeRichards
  }

  /** sasalib_algorithm_name: the entry of sasalib_alg_names for a known selector. */
  function AlgorithmName(alg: int): (name: string)
    requires KnownAlgorithm(alg)
    ensures alg == LeeRichards ==> name == "Lee & Richards"
    ensures alg == ShrakeRupley ==> name == "Shrake & Rupley"
  {
    ["Lee & Richards", "Shrake & Rupley"][alg]
  }

  datatype ParamBlock = ParamBlock(alg: int, nSr: int, dLr: real, nThreads: int)

  /** The parameter fields of sasalib_def_param. */
  const Defaults: ParamBlock := ParamBlock(ShrakeRupley, DefaultSrPoints, DefaultLrDelta, 1)

  /** A setter's new block and its return code (0 accepted, 1 rejected). */
  datatype Update = Update(block: ParamBlock, status: int)

  /** The parameter blocks a calculation object can reach through its setters. */
  ghost predicate Consistent(p: ParamBlock, supported: set<int>)
  {
    KnownAlgorithm(p.alg)
    && (p.nSr in supported || p.nSr == DefaultSrPoints)
    && 0.0 < p.dLr < LrDeltaBound
    && p.nThreads > 0
  }

  function SetAlgorithm(p: ParamBlock, alg: int): (u: Update)
    ensures u.status == 0 <==> KnownAlgorithm(alg)
    ensures u.status == 0 ==> u.block == p.(alg := alg)
    ensures u.status != 0 ==> u.status == 1 && u.block == p
  {
    if alg == ShrakeRupley || alg == LeeRichards then Update(p.(alg := alg), 0)
    else Update(p, 1)
  }

  /** A rejected count does not keep the old one: it falls back to the default. */
  function SetSrPoints(p: ParamBlock, n: int, supported: set<int>): (u: Update)
    ensures u.status == 0 <==> n in supported
    ensures u.status == 0 || u.status == 1
    ensures u.block == p.(nSr := if n in supported then n else DefaultSrPoints)
  {
    if n in supported then Update(p.(nSr := n), 0)
    else Update(p.(nSr := DefaultSrPoints), 1)
  }

  /** A rejected width does not keep the old one: it falls back to the default. */
  function SetLrDelta(p: ParamBlock, d: real): (u: Update)
    ensures u.status == 0 <==> 0.0 < d < LrDeltaBound
    ensures u.status == 0 || u.status == 1
    ensures u.block == p.(dLr := if u.status == 0 then d else DefaultLrDelta)
  {
    if d > 0.0 && d < LrDeltaBound then Update(p.(dLr := d), 0)
    else Update(p.(dLr := DefaultLrDelta), 1)
  }

  function SetNThreads(p: ParamBlock, n: int): (u: Update)
    ensures u.status == 0 <==> n > 0
    ensures u.status == 0 || u.status == 1
    ensures u.block == if n > 0 then p.(nThreads := n) else p
  {
    if n <= 0 then Update(p, 1) else Update(p.(nThreads := n), 0)
  }

  /** sasalib_get_sr_points: the count only while Shrake-Rupley is selected. */
  function SrPoints(p: ParamBlock): (n: int)
    ensures p.alg == ShrakeRupley ==> n == p.nSr
    ensures p.alg != ShrakeRupley ==> n == -1
  {
    if p.alg == ShrakeRupley then p.nSr else -1
  }

  /** C's conversion of a double to int: truncation toward zero. */
  function TruncateToInt(x: real): (i: int)
    ensures x >= 0.0 ==> i as real <= x < i as real + 1.0
    ensures x < 0.0 ==> i as real - 1.0 < x <= i as real
  {
    if x >= 0.0 then x.Floor else -((-x).Floor)
  }

  /** sasalib_get_lr_delta as written: its int return type truncates the width. */
  function LrDeltaAsWritten(p: ParamBlock): (d: int)
    ensures p.alg == LeeRichards ==> d == TruncateToInt(p.dLr)
    ensures p.alg != LeeRichards ==> d == -1
  {
    if p.alg == LeeRichards then TruncateToInt(p.dLr) else -1
  }

  /** sasalib_get_lr_delta with the double result its -1.0 and its setter call for. */
  function LrDelta(p: ParamBlock): (d: real)
    ensures p.alg == LeeRichards ==> d == p.dLr
    ensures p.alg != LeeRichards ==> d == -1.0
  {
    if p.alg == LeeRichards then p.dLr else -1.0
  }

  lemma DefaultsConsistent(supported: set<int>)
    ensures Consistent(Defaults, supported)
  {
  }

  /** Whatever a caller passes, every setter keeps the block consistent. */
  lemma SettersKeepConsistent(p: ParamBlock, supported: set<int>, alg: int, n: int, d: real, t: int)
    requires Consistent(p, supported)
    ensures Consistent(SetAlgorithm(p, alg).block, supported)
    ensures Consistent(SetSrPoints(p, n, supported).block, supported)
    ensures Consistent(SetLrDelta(p, d).block, supported)
    ensures Consistent(SetNThreads(p, t).block, supported)
  {
  }

  /** A rejected selector or thread count changes no getter. */
  lemma RejectionsChangeNothing(p: ParamBlock, alg: int, t: int)
    ensures !KnownAlgorithm(alg) ==>
      SrPoints(SetAlgorithm(p, alg).block) == SrPoints(p) && LrDelta(SetAlgorithm(p, alg).block) == LrDelta(p)
    ensures t <= 0 ==> SetNThreads(p, t).block.nThreads == p.nThreads
  {
  }

  /** Reading back a selector: the one set if known, otherwise the previous one. */
  lemma AlgorithmRoundTrip(p: ParamBlock, alg: int)
    ensures SetAlgorithm(p, alg).block.alg == if KnownAlgorithm(alg) then alg else p.alg
  {
  }

  /** Reading back a thread count: the one set if positive, otherwise the previous one. */
  lemma NThreadsRoundTrip(p: ParamBlock, n: int)
    ensures SetNThreads(p, n).block.nThreads == if n > 0 then n else p.nThreads
  {
  }

  /** Reading back a count: the stored one if supported, otherwise the default. */
  lemma SrPointsRoundTrip(p: ParamBlock, n: int, supported: set<int>)
    requires p.alg == ShrakeRupley
    ensures SrPoints(SetSrPoints(p, n, supported).block) == if n in supported then n else DefaultSrPoints
  {
  }

  lemma LrDeltaRoundTrip(p: ParamBlock, d: real)
    requires p.alg == LeeRichards
    ensures LrDelta(SetLrDelta(p, d).block) == if 0.0 < d < LrDeltaBound then d else DefaultLrDelta
  {
  }

  /** As written, every accepted width below one reads back as 0, the default among them. */
  lemma AsWrittenLrDeltaDropsFraction(p: ParamBlock, d: real)
    requires p.alg == LeeRichards && 0.0 < d < 1.0
    ensures SetLrDelta(p, d).status == 0
    ensures LrDeltaAsWritten(SetLrDelta(p, d).block) == 0
    ensures LrDelta(SetLrDelta(p, d).block) == d
  {
  }
}
