/**
 * The collaborators that sasalib.c calls but does not define: the two
 * geometric engines, the test-point validator, the atom classifier and the
 * parsed structure. Each is reduced to the values the calculation object
 * consumes from it.
 */
module Collaborators {

  datatype Point = Point(x: real, y: real, z: real)

  /** What an engine leaves behind: the per-atom areas it wrote and its status code. */
  datatype EngineRun = EngineRun(sasa: seq<real>, status: int)

  /** An engine fills one non-negative area per coordinate. */
  predicate Fills(c: seq<Point>, run: EngineRun)
  {
    |run.sasa| == |c| && forall i :: 0 <= i < |run.sasa| ==> run.sasa[i] >= 0.0
  }

  ghost predicate SrFills(f: (seq<Point>, seq<real>, int, int) -> EngineRun)
  {
    forall c, r, n, t :: Fills(c, f(c, r, n, t))
  }

  ghost predicate LrFills(f: (seq<Point>, seq<real>, real, int) -> EngineRun)
  {
    forall c, r, d, t :: Fills(c, f(c, r, d, t))
  }

  /** The run of an engine that finds every atom buried: all areas zero, status 0. */
  function Buried(c: seq<Point>): (run: EngineRun)
    ensures Fills(c, run) && run.status == 0
    ensures forall i :: 0 <= i < |run.sasa| ==> run.sasa[i] == 0.0
  {
    EngineRun(seq(|c|, i => 0.0), 0)
  }

  /** sasa_shrake_rupley(sasa, coord, r, n_points, n_threads) */
  type SrEngine = f: (seq<Point>, seq<real>, int, int) -> EngineRun
    | SrFills(f)
    witness (c: seq<Point>, r: seq<real>, n: int, t: int) => Buried(c)

  /** sasa_lee_richards(sasa, coord, r, delta, n_threads) */
  type LrEngine = f: (seq<Point>, seq<real>, real, int) -> EngineRun
    | LrFills(f)
    witness (c: seq<Point>, r: seq<real>, d: real, t: int) => Buried(c)

  /** The atom classes of sasalib_class, lowest to highest. */
  const Polar: int := 0
  const Apolar: int := 1
  const NucleicAcid: int := 2
  const ClassUnknown: int := 3

  /**
   * classify_class, classify_residue, classify_nclasses and
   * classify_nresiduetypes: ids are dense and below the table sizes.
   * The class table is assumed to have room for every class up to
   * ClassUnknown, which sasalib.c indexes without a check.
   */
  datatype Classifier = Classifier(
    classOf: (string, string) -> int,
    residueOf: string -> int,
    nClasses: nat,
    nResidueTypes: nat)

  ghost predicate IdsInRange(k: Classifier)
  {
    ClassUnknown < k.nClasses
    && (forall res, atom :: 0 <= k.classOf(res, atom) < k.nClasses)
    && (forall res :: 0 <= k.residueOf(res) < k.nResidueTypes)
  }

  type AtomClassifier = k: Classifier | IdsInRange(k)
    witness Classifier((res: string, atom: string) => Polar, (res: string) => 0, ClassUnknown + 1, 1)

  /** An atom of a parsed structure, with the radius the default radius table gives it. */
  datatype Atom = Atom(resName: string, name: string, pos: Point, radius: real)

  datatype Structure = Structure(atoms: seq<Atom>)

  /** structure_xyz */
  function Xyz(p: Structure): (c: seq<Point>)
    ensures |c| == |p.atoms|
  {
    seq(|p.atoms|, i requires 0 <= i < |p.atoms| => p.atoms[i].pos)
  }

  /** structure_r_def */
  function DefaultRadii(p: Structure): (r: seq<real>)
    ensures |r| == |p.atoms|
  {
    seq(|p.atoms|, i requires 0 <= i < |p.atoms| => p.atoms[i].radius)
  }

  /** The per-atom ids of class_t. */
  datatype Classification = Classification(classIds: seq<int>, residueIds: seq<int>)

  /** Everything the calculation object reaches outside sasalib.c. */
  datatype Env = Env(
    supportedSrPoints: set<int>,   // srp_n_is_valid
    shrakeRupley: SrEngine,
    leeRichards: LrEngine,
    classifier: AtomClassifier)
}
