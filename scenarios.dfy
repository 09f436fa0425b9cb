/**
 * Call sequences on the calculation object that show the defects of the
 * code as written next to the corrected members.
 */
module Scenarios {
  import opened Wrappers
  import opened Collaborators
  import opened Params
  import opened Ownership
  import opened Library

  /** Engines that report every atom buried, and a one-class classifier. */
  function QuietEnv(): Env
  {
    var sr: SrEngine := (c: seq<Point>, r: seq<real>, n: int, t: int) => Buried(c);
    var lr: LrEngine := (c: seq<Point>, r: seq<real>, d: real, t: int) => Buried(c);
    var k: AtomClassifier := Classifier((res: string, atom: string) => Polar, (res: string) => 0, ClassUnknown + 1, 1);
    Env({DefaultSrPoints}, sr, lr, k)
  }

  function SixAtoms(): seq<Point>
  {
    [Point(0.0, 0.0, 0.0), Point(1.0, 1.0, 1.0), Point(-1.0, 1.0, -1.0),
     Point(2.0, 0.0, -2.0), Point(2.0, 2.0, 0.0), Point(-5.0, 5.0, 5.0)]
  }

  /** Linking twice, as written: the second link frees the radii the first one borrowed. */
  method LinkTwiceFreesCallerRadii() returns (first: Release, second: Release)
    ensures first == KeepRadii && second == FreeCallerRadii
  {
    var s := new Sasalib.Init(QuietEnv());
    var radii := [4.0, 2.0, 2.0, 2.0, 2.0, 2.0];
    var _, f1 := s.LinkCoordAsWritten(SixAtoms(), Some(radii), 6);
    var _, f2 := s.LinkCoordAsWritten(SixAtoms(), Some(radii), 6);
    first, second := f1, f2;
  }

  /** Linking twice with the owns_r check: the borrowed radii are left alone. */
  method LinkTwiceKeepsCallerRadii() returns (first: Release, second: Release)
    ensures first == KeepRadii && second == KeepRadii
  {
    var s := new Sasalib.Init(QuietEnv());
    var radii := [4.0, 2.0, 2.0, 2.0, 2.0, 2.0];
    var _, f1 := s.LinkCoord(SixAtoms(), Some(radii), 6);
    var _, f2 := s.LinkCoord(SixAtoms(), Some(radii), 6);
    first, second := f1, f2;
  }

  /**
   * Linking six atoms on a fresh object, as written: refresh as written would
   * allocate a result of nAtoms = 0 entries and read six, so its precondition
   * fails; the corrected link records the six atoms and refresh fits.
   */
  method RefreshAfterLinkOverruns() returns (fitsAsWritten: bool, sized: nat, linked: nat, fitsCorrected: bool)
    ensures !fitsAsWritten && sized == 0 && linked == 6 && fitsCorrected
  {
    var radii := [4.0, 2.0, 2.0, 2.0, 2.0, 2.0];
    var s := new Sasalib.Init(QuietEnv());
    var _, _ := s.LinkCoordAsWritten(SixAtoms(), Some(radii), 6);
    fitsAsWritten, sized, linked := s.RefreshFits(), s.NAtoms(), |s.coord.value|;
    var t := new Sasalib.Init(QuietEnv());
    var _, _ := t.LinkCoord(SixAtoms(), Some(radii), 6);
    fitsCorrected := t.RefreshFits();
  }

  /** A NULL radius pointer passed to link leaves nothing to refresh: refresh returns 1. */
  method RefreshWithoutRadiiFails() returns (res: int, total: real)
    ensures res == 1 && total == -1.0
  {
    var s := new Sasalib.Init(QuietEnv());
    var _, _ := s.LinkCoord(SixAtoms(), None, 6);
    res := s.Refresh();
    total := s.AreaTotal();
  }

  /** One atom as a parsed structure would give it. */
  function OneAtom(): Structure
  {
    Structure([Atom("ALA", "CA", Point(0.0, 0.0, 0.0), 1.87)])
  }

  /** Link, then calc_pdb as written: calc_pdb frees the radii the link borrowed. */
  method LinkThenCalcPdbFreesCallerRadii() returns (freed: Release)
    ensures freed == FreeCallerRadii
  {
    var s := new Sasalib.Init(QuietEnv());
    var _, _ := s.LinkCoordAsWritten(SixAtoms(), Some([4.0, 2.0, 2.0, 2.0, 2.0, 2.0]), 6);
    var _, f := s.CalcPdbAsWritten(OneAtom());
    freed := f;
  }

  /** Link, then calc_pdb with the owns_r check: the borrowed radii are left alone. */
  method LinkThenCalcPdbKeepsCallerRadii() returns (freed: Release)
    ensures freed == KeepRadii
  {
    var s := new Sasalib.Init(QuietEnv());
    var _, _ := s.LinkCoord(SixAtoms(), Some([4.0, 2.0, 2.0, 2.0, 2.0, 2.0]), 6);
    var _, f := s.CalcPdb(OneAtom());
    freed := f;
  }

  /** No total before a calculation; after link and refresh, the sum of the engine's areas. */
  method LinkedRefreshComputesTotal() returns (before: real, after: real, atoms: nat)
    ensures before == -1.0 && after == 0.0 && atoms == 6
  {
    var s := new Sasalib.Init(QuietEnv());
    before := s.AreaTotal();
    var _, _ := s.LinkCoord(SixAtoms(), Some([4.0, 2.0, 2.0, 2.0, 2.0, 2.0]), 6);
    var _ := s.Refresh();
    assert Areas.Sum(seq(6, i => 0.0)) == 0.0 by {
      Areas.SumSingle(6, -1, 0.0);
      assert seq(6, i => 0.0) == Areas.Single(6, -1, 0.0);
    }
    after := s.AreaTotal();
    atoms := s.NAtoms();
  }

  /** A rejected slice width resets the stored width to the default, not to the previous value. */
  method RejectedWidthFallsBack() returns (accepted: int, rejected: int, width: real)
    ensures accepted == 0 && rejected == 1 && width == DefaultLrDelta
  {
    var s := new Sasalib.Init(QuietEnv());
    var _ := s.SetAlgorithm(LeeRichards);
    accepted := s.SetLrDelta(1.5);
    rejected := s.SetLrDelta(6.0);
    width := s.GetLrDelta();
  }
}
