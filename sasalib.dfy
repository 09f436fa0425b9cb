/**
 * The calculation object sasalib_t of sasalib.c: its parameter block, the
 * calculation driver with its result and aggregation, the read accessors
 * gated on a finished calculation, the radius-buffer ownership and the
 * protein name.
 */
module Library {
  import opened Wrappers
  import opened Collaborators
  import opened Params
  import opened Areas
  import opened Names
  import opened Ownership

  /** result_t: per-atom areas, their total, and the per-class and per-residue tables. */
  class SasaResult {
    const sasa: array<real>
    var total: real
    const classArea: array<real>
    const residueArea: array<real>

    ghost predicate Valid()
      reads this
    {
      sasa != classArea && sasa != residueArea && classArea != residueArea
    }

    /** sasalib_result_new: room for nAtoms areas and zero-filled tables. */
    constructor (nAtoms: nat, nClasses: nat, nResidueTypes: nat)
      ensures Valid() && fresh(sasa) && fresh(classArea) && fresh(residueArea)
      ensures sasa.Length == nAtoms
      ensures classArea[..] == Zeros(nClasses) && residueArea[..] == Zeros(nResidueTypes)
    {
      sasa := new real[nAtoms];
      var c := new real[nClasses];
      var res := new real[nResidueTypes];
      for i := 0 to nClasses
        modifies c
        invariant forall j :: 0 <= j < i ==> c[j] == 0.0
      {
        c[i] := 0.0;
      }
      for i := 0 to nResidueTypes
        modifies res
        invariant forall j :: 0 <= j < i ==> res[j] == 0.0
      {
        res[i] := 0.0;
      }
      assert c[..] == Zeros(nClasses);
      assert res[..] == Zeros(nResidueTypes);
      classArea, residueArea := c, res;
    }

    /**
     * The engine's areas land at the front of the buffer, and the total is
     * accumulated over them (sasalib_calc, lines 157-171).
     */
    method Record(areas: seq<real>)
      requires Valid() && |areas| <= sasa.Length
      modifies this`total, sasa
      ensures sasa[..|areas|] == areas && total == Sum(areas)
    {
      forall i | 0 <= i < |areas| {
        sasa[i] := areas[i];
      }
      assert sasa[..|areas|] == areas;
      total := 0.0;
      for i := 0 to |areas|
        modifies this`total
        invariant total == Sum(sasa[..i])
      {
        assert sasa[..i + 1][..i] == sasa[..i];
        total := total + sasa[i];
      }
    }

    /**
     * The loop of sasalib_get_class_result: the area of each atom i below
     * |classIds| is added to entry classIds[i] of the class table and entry
     * residueIds[i] of the residue table.
     */
    method Accumulate(classIds: seq<int>, residueIds: seq<int>)
      requires Valid() && |classIds| == |residueIds| <= sasa.Length
      requires IdsBelow(classIds, classArea.Length) && IdsBelow(residueIds, residueArea.Length)
      modifies classArea, residueArea
      ensures classArea[..] == AddTables(old(classArea[..]), Aggregate(sasa[..|classIds|], classIds, classArea.Length))
      ensures residueArea[..] == AddTables(old(residueArea[..]), Aggregate(sasa[..|classIds|], residueIds, residueArea.Length))
    {
      var n := |classIds|;
      ghost var areas := sasa[..n];
      ghost var classBefore := classArea[..];
      ghost var residueBefore := residueArea[..];
      for i := 0 to n
        modifies classArea, residueArea
        invariant classArea[..] == AddTables(classBefore, Aggregate(areas[..i], classIds[..i], |classBefore|))
        invariant residueArea[..] == AddTables(residueBefore, Aggregate(areas[..i], residueIds[..i], |residueBefore|))
      {
        AccumulateStep(classBefore, areas, classIds, i);
        AccumulateStep(residueBefore, areas, residueIds, i);
        var ci, ri := classIds[i], residueIds[i];
        classArea[ci] := classArea[ci] + sasa[i];
        residueArea[ri] := residueArea[ri] + sasa[i];
      }
      assert areas[..n] == areas && classIds[..n] == classIds && residueIds[..n] == residueIds;
    }
  }

  /** sasalib_classify_structure: one class id and one residue id per atom. */
  function Classify(k: AtomClassifier, p: Structure): (c: Classification)
    ensures |c.classIds| == |p.atoms| && |c.residueIds| == |p.atoms|
    ensures IdsBelow(c.classIds, k.nClasses) && IdsBelow(c.residueIds, k.nResidueTypes)
  {
    var c := Classification(
      seq(|p.atoms|, i requires 0 <= i < |p.atoms| => k.classOf(p.atoms[i].resName, p.atoms[i].name)),
      seq(|p.atoms|, i requires 0 <= i < |p.atoms| => k.residueOf(p.atoms[i].resName)));
    // Names each id as a classifier result, so the classifier's range constraint applies.
    assert forall i :: 0 <= i < |p.atoms| ==>
      c.classIds[i] == k.classOf(p.atoms[i].resName, p.atoms[i].name)
      && c.residueIds[i] == k.residueOf(p.atoms[i].resName);
    c
  }

  method ClassifyStructure(k: AtomClassifier, p: Structure) returns (c: Classification)
    ensures c == Classify(k, p)
  {
    var classIds: seq<int> := [];
    var residueIds: seq<int> := [];
    for i := 0 to |p.atoms|
      invariant classIds == Classify(k, p).classIds[..i]
      invariant residueIds == Classify(k, p).residueIds[..i]
    {
      classIds := classIds + [k.classOf(p.atoms[i].resName, p.atoms[i].name)];
      residueIds := residueIds + [k.residueOf(p.atoms[i].resName)];
    }
    assert Classify(k, p).classIds[..|p.atoms|] == Classify(k, p).classIds;
    assert Classify(k, p).residueIds[..|p.atoms|] == Classify(k, p).residueIds;
    c := Classification(classIds, residueIds);
  }

  class Sasalib {
    const env: Env
    var alg: int
    var r: Option<seq<real>>
    var coord: Option<seq<Point>>
    var classification: Option<Classification>
    var nAtoms: nat
    var nSr: int
    var dLr: real
    var nThreads: int
    var ownsR: bool
    var calculated: bool
    var result: SasaResult?
    const proteinName: array<char>
    ghost var Repr: set<object>

    ghost predicate Valid()
      reads this, Repr
    {
      this in Repr && proteinName in Repr && proteinName.Length == FieldSize
      && (ownsR ==> r.Some?)
      && (calculated ==> result != null)
      && (result != null ==>
            result in Repr
            && {result.sasa, result.classArea, result.residueArea} <= Repr
            && result.Valid()
            && result.classArea.Length == env.classifier.nClasses
            && result.residueArea.Length == env.classifier.nResidueTypes)
    }

    function Param(): ParamBlock
      reads this`alg, this`nSr, this`dLr, this`nThreads
    {
      ParamBlock(alg, nSr, dLr, nThreads)
    }

    /** sasalib_init: a copy of sasalib_def_param. */
    constructor Init(env: Env)
      ensures Valid() && fresh(Repr)
      ensures this.env == env && Param() == Defaults
      ensures r.None? && coord.None? && classification.None? && result == null
      ensures nAtoms == 0 && !ownsR && !calculated
      ensures ProteinName() == "undef"
    {
      this.env := env;
      alg, nSr, dLr, nThreads := ShrakeRupley, DefaultSrPoints, DefaultLrDelta, 1;
      r, coord, classification, result := None, None, None, null;
      nAtoms, ownsR, calculated := 0, false, false;
      var name := new char[FieldSize];
      StrCopy(name, 0, "undef");
      assert name[..] == "undef" + [Nul] + name[6..];
      TerminatedReadsBack("undef", name[6..]);
      proteinName := name;
      Repr := {this, name};
    }

    // ---- parameter block ----

    method SetAlgorithm(a: int) returns (res: int)
      modifies this`alg
      ensures Param() == Params.SetAlgorithm(old(Param()), a).block
      ensures res == Params.SetAlgorithm(old(Param()), a).status
    {
      if a == ShrakeRupley || a == LeeRichards {
        alg := a;
        return 0;
      }
      return 1;
    }

    method SetSrPoints(n: int) returns (res: int)
      modifies this`nSr
      ensures Param() == Params.SetSrPoints(old(Param()), n, env.supportedSrPoints).block
      ensures res == Params.SetSrPoints(old(Param()), n, env.supportedSrPoints).status
    {
      if n in env.supportedSrPoints {
        nSr := n;
        return 0;
      }
      nSr := DefaultSrPoints;
      return 1;
    }

    method SetLrDelta(d: real) returns (res: int)
      modifies this`dLr
      ensures Param() == Params.SetLrDelta(old(Param()), d).block
      ensures res == Params.SetLrDelta(old(Param()), d).status
    {
      if d > 0.0 && d < LrDeltaBound {
        dLr := d;
        return 0;
      }
      dLr := DefaultLrDelta;
      return 1;
    }

    method SetNThreads(n: int) returns (res: int)
      modifies this`nThreads
      ensures Param() == Params.SetNThreads(old(Param()), n).block
      ensures res == Params.SetNThreads(old(Param()), n).status
    {
      if n <= 0 {
        return 1;
      }
      nThreads := n;
      return 0;
    }

    /** sasalib_copy_param: the four parameter fields and nothing else. */
    method CopyParam(source: Sasalib)
      modifies this`alg, this`nSr, this`dLr, this`nThreads
      ensures Param() == old(source.Param())
    {
      alg := source.alg;
      nSr := source.nSr;
      dLr := source.dLr;
      nThreads := source.nThreads;
    }

    /** sasalib_get_algorithm: the selector of the parameter block. */
    function GetAlgorithm(): (a: int)
      reads this`alg, this`nSr, this`dLr, this`nThreads
      ensures a == Param().alg
    {
      alg
    }

    /** sasalib_algorithm_name: the entry of the names table for the selector. */
    function GetAlgorithmName(): (name: string)
      reads this`alg
      requires KnownAlgorithm(alg)
      ensures alg == LeeRichards ==> name == "Lee & Richards"
      ensures alg == ShrakeRupley ==> name == "Shrake & Rupley"
    {
      AlgorithmName(alg)
    }

    /** sasalib_get_sr_points: the test-point count, gated on Shrake-Rupley. */
    function GetSrPoints(): (n: int)
      reads this`alg, this`nSr, this`dLr, this`nThreads
      ensures n == SrPoints(Param())
    {
      SrPoints(Param())
    }

    /** sasalib_get_lr_delta with its double result: the slice width, gated on Lee-Richards. */
    function GetLrDelta(): (d: real)
      reads this`alg, this`nSr, this`dLr, this`nThreads
      ensures d == LrDelta(Param())
    {
      LrDelta(Param())
    }

    /** sasalib_get_nthreads: the thread count of the parameter block. */
    function GetNThreads(): (n: int)
      reads this`alg, this`nSr, this`dLr, this`nThreads
      ensures n == Param().nThreads
    {
      nThreads
    }

    /** sasalib_n_atoms: the atom count the next calculation sizes its result by. */
    function NAtoms(): (n: nat)
      reads this`nAtoms
      ensures n == nAtoms
    {
      nAtoms
    }

    // ---- calculation ----

    /** The engine the selector dispatches to, run with the parameters it takes. */
    function Run(c: seq<Point>, radii: seq<real>): (run: EngineRun)
      reads this`alg, this`nSr, this`dLr, this`nThreads
      requires KnownAlgorithm(alg)
      ensures Fills(c, run)
    {
      // The engines' subset-type constraint is instantiated on locals, not on field reads.
      var points, width, threads := nSr, dLr, nThreads;
      if alg == ShrakeRupley then env.shrakeRupley(c, radii, points, threads)
      else env.leeRichards(c, radii, width, threads)
    }

    /** A calculation over c and radii has finished and its areas and total are stored. */
    ghost predicate Computed(c: seq<Point>, radii: seq<real>)
      reads this, Repr
      requires Valid()
    {
      KnownAlgorithm(alg) && calculated && result != null
      && |c| <= result.sasa.Length
      && result.sasa[..|c|] == Run(c, radii).sasa
      && result.total == Sum(Run(c, radii).sasa)
      && result.total >= 0.0
    }

    ghost predicate TablesZero()
      reads this, Repr
      requires Valid()
    {
      result != null
      && result.classArea[..] == Zeros(env.classifier.nClasses)
      && result.residueArea[..] == Zeros(env.classifier.nResidueTypes)
    }

    /** The first step of sasalib_calc: the previous result gives way to a new one sized by nAtoms. */
    method Renew() returns (rs: SasaResult)
      requires Valid()
      modifies this`result, this`Repr
      ensures Valid() && result == rs && rs.sasa.Length == nAtoms && TablesZero()
      ensures fresh(rs) && fresh(rs.sasa) && fresh(rs.classArea) && fresh(rs.residueArea)
    {
      rs := new SasaResult(nAtoms, env.classifier.nClasses, env.classifier.nResidueTypes);
      result := rs;
      Repr := {this, proteinName, rs, rs.sasa, rs.classArea, rs.residueArea};
    }

    /**
     * sasalib_calc: the previous result is discarded and a new one sized by
     * nAtoms is made before the selector is looked at; an unknown selector
     * then fails without marking the object calculated. Otherwise the engine's
     * status is returned and the object is calculated whatever that status.
     */
    method Calc(c: seq<Point>, radii: seq<real>) returns (res: int)
      requires Valid()
      requires |c| <= nAtoms && |c| <= |radii|
      modifies this`result, this`calculated, this`Repr
      ensures Valid()
      ensures result != null && fresh(result) && result.sasa.Length == nAtoms && TablesZero()
      ensures fresh(result.sasa) && fresh(result.classArea) && fresh(result.residueArea)
      ensures KnownAlgorithm(alg) ==> Computed(c, radii) && res == Run(c, radii).status
      ensures !KnownAlgorithm(alg) ==> res == 1 && calculated == old(calculated)
    {
      var rs := Renew();
      var run: EngineRun;
      var points, width, threads := nSr, dLr, nThreads;
      if alg == ShrakeRupley {
        run := env.shrakeRupley(c, radii, points, threads);
      } else if alg == LeeRichards {
        run := env.leeRichards(c, radii, width, threads);
      } else {
        return 1;
      }
      assert run == Run(c, radii);
      rs.Record(run.sasa);
      SumNonNegative(run.sasa);
      calculated := true;
      res := run.status;
    }

    /**
     * sasalib_get_class_result: classifies the atoms of p and adds each
     * atom's area to the entry of its class and of its residue type.
     */
    method GetClassResult(p: Structure)
      requires Valid() && result != null && |p.atoms| <= result.sasa.Length
      modifies this`classification, result.classArea, result.residueArea
      ensures Valid()
      ensures classification == Some(Classify(env.classifier, p))
      ensures result.classArea[..] == AddTables(old(result.classArea[..]),
        Aggregate(result.sasa[..|p.atoms|], Classify(env.classifier, p).classIds, env.classifier.nClasses))
      ensures result.residueArea[..] == AddTables(old(result.residueArea[..]),
        Aggregate(result.sasa[..|p.atoms|], Classify(env.classifier, p).residueIds, env.classifier.nResidueTypes))
    {
      var k := ClassifyStructure(env.classifier, p);
      classification := Some(k);
      result.Accumulate(k.classIds, k.residueIds);
    }

    /** sasalib_calc_coord: n atoms of caller-owned coordinates and radii. */
    method CalcCoord(xyz: seq<Point>, radii: seq<real>, n: nat) returns (res: int)
      requires Valid() && n <= |xyz| && n <= |radii|
      modifies this`nAtoms, this`result, this`calculated, this`Repr
      ensures Valid()
      ensures nAtoms == n && result != null && fresh(result) && result.sasa.Length == n && TablesZero()
      ensures KnownAlgorithm(alg) ==> Computed(xyz[..n], radii) && res == Run(xyz[..n], radii).status
      ensures !KnownAlgorithm(alg) ==> res == 1 && calculated == old(calculated)
    {
      nAtoms := n;
      res := Calc(xyz[..n], radii);
    }

    /**
     * The class and residue tables of the last result are the per-id sums of
     * the areas, for the classification of p, and each adds up to the total.
     */
    ghost predicate ClassTables(areas: seq<real>, p: Structure)
      reads this, Repr
      requires Valid()
    {
      result != null && |areas| == |p.atoms|
      && classification == Some(Classify(env.classifier, p))
      && result.classArea[..] == Aggregate(areas, Classify(env.classifier, p).classIds, env.classifier.nClasses)
      && result.residueArea[..] == Aggregate(areas, Classify(env.classifier, p).residueIds, env.classifier.nResidueTypes)
      && Sum(result.classArea[..]) == result.total
      && Sum(result.residueArea[..]) == result.total
    }

    /**
     * sasalib_get_class_result on the zeroed tables of a calculation that has
     * just run over the atoms of p with their default radii.
     */
    method AggregateAfterCalc(p: Structure)
      requires Valid() && KnownAlgorithm(alg) && Computed(Xyz(p), DefaultRadii(p)) && TablesZero()
      modifies this`classification, result.classArea, result.residueArea
      ensures Valid() && result == old(result) && Computed(Xyz(p), DefaultRadii(p))
      ensures ClassTables(Run(Xyz(p), DefaultRadii(p)).sasa, p)
    {
      ghost var run := Run(Xyz(p), DefaultRadii(p));
      ghost var k := Classify(env.classifier, p);
      GetClassResult(p);
      assert result.sasa[..|p.atoms|] == run.sasa;
      FreshTable(run.sasa, k.classIds, env.classifier.nClasses);
      FreshTable(run.sasa, k.residueIds, env.classifier.nResidueTypes);
    }

    /**
     * The state sasalib_calc_pdb leaves behind for structure p and status res:
     * the object owns the default radii of p and has calculated over its atoms;
     * on status 0 the tables are the per-id sums, otherwise they stay zeroed.
     */
    ghost predicate PdbCalculated(p: Structure, res: int)
      reads this, Repr
      requires Valid()
    {
      nAtoms == |p.atoms| && r == Some(DefaultRadii(p)) && ownsR
      && result != null && result.sasa.Length == nAtoms
      && (KnownAlgorithm(alg) ==> Computed(Xyz(p), DefaultRadii(p)) && res == Run(Xyz(p), DefaultRadii(p)).status)
      && (!KnownAlgorithm(alg) ==> res == 1)
      && (res != 0 ==> TablesZero())
      && (KnownAlgorithm(alg) && res == 0 ==> ClassTables(Run(Xyz(p), DefaultRadii(p)).sasa, p))
    }

    /**
     * sasalib_calc_pdb after the old radius buffer is released: the object
     * takes ownership of the default radii of p, calculates, and on success
     * aggregates the areas per class and per residue type.
     */
    method CalcDefaultRadii(p: Structure) returns (res: int)
      requires Valid()
      modifies this`nAtoms, this`r, this`ownsR, this`result, this`calculated, this`Repr, this`classification
      ensures Valid() && PdbCalculated(p, res) && fresh(result)
      ensures !KnownAlgorithm(alg) ==> calculated == old(calculated)
      ensures res != 0 ==> classification == old(classification)
    {
      nAtoms := |p.atoms|;
      var radii := DefaultRadii(p);
      r := Some(radii);
      ownsR := true;
      res := Calc(Xyz(p), radii);
      if res == 0 {
        AggregateAfterCalc(p);
      }
    }

    /**
     * sasalib_calc_pdb as written, with the parsed structure as input: the
     * radius buffer it replaces is freed whether or not the object owns it.
     */
    method CalcPdbAsWritten(p: Structure) returns (res: int, freed: Release)
      requires Valid()
      modifies this`nAtoms, this`r, this`ownsR, this`result, this`calculated, this`Repr, this`classification
      ensures Valid() && PdbCalculated(p, res) && fresh(result)
      ensures freed == ReleaseAsWritten(old(r).Some?, old(ownsR))
      ensures !KnownAlgorithm(alg) ==> calculated == old(calculated)
      ensures res != 0 ==> classification == old(classification)
    {
      freed := ReleaseAsWritten(r.Some?, ownsR);
      res := CalcDefaultRadii(p);
    }

    /**
     * sasalib_calc_pdb with the owns_r check of sasalib_free: the radius
     * buffer it replaces is freed only when the object owns it.
     */
    method CalcPdb(p: Structure) returns (res: int, freed: Release)
      requires Valid()
      modifies this`nAtoms, this`r, this`ownsR, this`result, this`calculated, this`Repr, this`classification
      ensures Valid() && PdbCalculated(p, res) && fresh(result)
      ensures freed == ReleaseRadii(old(r).Some?, old(ownsR)) && freed != FreeCallerRadii
      ensures !KnownAlgorithm(alg) ==> calculated == old(calculated)
      ensures res != 0 ==> classification == old(classification)
    {
      freed := ReleaseRadii(r.Some?, ownsR);
      res := CalcDefaultRadii(p);
    }

    /**
     * sasalib_link_coord as written: links the caller's coordinates and radius
     * pointer (which may be NULL), frees the old radius buffer without looking
     * at owns_r, and leaves nAtoms as it was.
     */
    method LinkCoordAsWritten(xyz: seq<Point>, radii: Option<seq<real>>, n: nat) returns (res: int, freed: Release)
      requires Valid() && n <= |xyz|
      modifies this`coord, this`r, this`ownsR
      ensures Valid()
      ensures res == 0 && freed == ReleaseAsWritten(old(r).Some?, old(ownsR))
      ensures coord == Some(xyz[..n]) && r == radii && !ownsR
    {
      coord := Some(xyz[..n]);
      freed := ReleaseAsWritten(r.Some?, ownsR);
      r := radii;
      ownsR := false;
      res := 0;
    }

    /**
     * sasalib_link_coord with the owns_r check of sasalib_free, recording the
     * number of linked atoms: the radius buffer it replaces is freed only when
     * the object owns it.
     */
    method LinkCoord(xyz: seq<Point>, radii: Option<seq<real>>, n: nat) returns (res: int, freed: Release)
      requires Valid() && n <= |xyz|
      modifies this`coord, this`r, this`ownsR, this`nAtoms
      ensures Valid()
      ensures res == 0 && freed == ReleaseRadii(old(r).Some?, old(ownsR)) && freed != FreeCallerRadii
      ensures coord == Some(xyz[..n]) && r == radii && !ownsR && nAtoms == n
    {
      coord := Some(xyz[..n]);
      freed := ReleaseRadii(r.Some?, ownsR);
      r := radii;
      ownsR := false;
      nAtoms := n;
      res := 0;
    }

    /**
     * Whether refresh as written stays inside its buffers: the result it
     * allocates has nAtoms entries and the engines read one radius per
     * linked coordinate.
     */
    predicate RefreshFits()
      reads this`coord, this`r, this`nAtoms
    {
      coord.Some? && r.Some? ==> |coord.value| <= nAtoms && |coord.value| <= |r.value|
    }

    /**
     * refresh as written: recalculates the linked coordinates with the stored
     * radii into a result sized by nAtoms, and drops the calculation's own
     * return code.
     */
    method RefreshAsWritten() returns (res: int)
      requires Valid() && RefreshFits()
      modifies this`result, this`calculated, this`Repr
      ensures Valid()
      ensures coord.None? || r.None? ==>
        res == 1 && result == old(result) && calculated == old(calculated)
      ensures coord.Some? && r.Some? ==>
        res == 0 && result != null && fresh(result) && result.sasa.Length == nAtoms && TablesZero()
        && (KnownAlgorithm(alg) ==> Computed(coord.value, r.value))
        && (!KnownAlgorithm(alg) ==> calculated == old(calculated))
    {
      if coord.None? || r.None? {
        return 1;
      }
      var _ := Calc(coord.value, r.value);
      res := 0;
    }

    /**
     * refresh with the result sized by the linked coordinates: recalculates
     * them with the stored radii and drops the calculation's own return code.
     */
    method Refresh() returns (res: int)
      requires Valid()
      requires coord.Some? && r.Some? ==> |coord.value| <= |r.value|
      modifies this`nAtoms, this`result, this`calculated, this`Repr
      ensures Valid()
      ensures coord.None? || r.None? ==>
        res == 1 && nAtoms == old(nAtoms) && result == old(result) && calculated == old(calculated)
      ensures coord.Some? && r.Some? ==>
        res == 0 && nAtoms == |coord.value| && result != null && fresh(result)
        && result.sasa.Length == nAtoms && TablesZero()
        && (KnownAlgorithm(alg) ==> Computed(coord.value, r.value))
        && (!KnownAlgorithm(alg) ==> calculated == old(calculated))
    {
      if coord.None? || r.None? {
        return 1;
      }
      nAtoms := |coord.value|;
      var _ := Calc(coord.value, r.value);
      res := 0;
    }

    /** sasalib_free: releases the radius buffer only when the object owns it. */
    method Free() returns (freed: Release)
      requires Valid()
      ensures freed == ReleaseRadii(r.Some?, ownsR)
      ensures freed == FreeOwnRadii <==> ownsR
    {
      if ownsR {
        freed := FreeOwnRadii;
      } else {
        freed := KeepRadii;
      }
    }

    // ---- gated reads ----

    /** sasalib_area_total: -1 until a calculation has finished. */
    function AreaTotal(): (t: real)
      reads this, Repr
      requires Valid()
      ensures !calculated ==> t == -1.0
      ensures calculated ==> t == result.total
    {
      if !calculated then -1.0 else result.total
    }

    /** sasalib_area_class: the area of one atom class of the last calculation. */
    function AreaClass(c: int): (a: real)
      reads this, Repr
      requires Valid() && calculated && Polar <= c <= ClassUnknown
      ensures a == result.classArea[c]
    {
      result.classArea[c]
    }

    /** sasalib_area_atom_array: no array until a calculation has finished. */
    function AreaAtomArray(): (a: Option<seq<real>>)
      reads this, Repr
      requires Valid()
      ensures a.None? <==> !calculated
      ensures calculated ==> a == Some(result.sasa[..])
    {
      if !calculated then None else Some(result.sasa[..])
    }

    /** sasalib_radius_atom: the radius of atom i of the current radius buffer. */
    function RadiusAtom(i: int): (x: real)
      reads this
      requires 0 <= i < nAtoms && r.Some? && nAtoms <= |r.value|
      ensures x == r.value[i]
    {
      r.value[i]
    }

    // ---- protein name ----

    /** sasalib_get_proteinname: the C string held in the field. */
    function ProteinName(): (name: string)
      reads proteinName
      ensures name <= proteinName[..] && Nul !in name
      ensures |name| < proteinName.Length ==> proteinName[|name|] == Nul
    {
      UntilNul(proteinName[..])
    }

    /** sasalib_set_proteinname, with the field one byte longer than declared. */
    method SetProteinName(name: string)
      requires Valid() && Nul !in name
      modifies proteinName
      ensures Valid() && ProteinName() == Stored(name)
    {
      var n := |name|;
      var s := Stored(name);
      if n > NameLimit {
        StrCopy(proteinName, 0, Ellipsis);
        assert proteinName[..3] == Ellipsis by {
          assert proteinName[..3] == proteinName[0..4][..3];
        }
        var tail := name[n + 3 - NameLimit..];
        StrCopy(proteinName, 3, tail);
        assert proteinName[..] == proteinName[..3] + proteinName[3..3 + |tail| + 1];
        assert proteinName[..] == s + [Nul] + [];
      } else {
        StrCopy(proteinName, 0, name);
        assert proteinName[..] == s + [Nul] + proteinName[|s| + 1..];
      }
      TerminatedReadsBack(s, proteinName[|s| + 1..]);
    }
  }
}
