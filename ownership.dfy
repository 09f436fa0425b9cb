/**
 * Ownership of the radius buffer s->r. The owns_r flag says whether the
 * object allocated the buffer (sasalib_calc_pdb) or borrows the caller's
 * (sasalib_link_coord); only an owned buffer may be freed.
 */
module Ownership {

  /** What replacing or discarding the radius buffer does to it. */
  datatype Release = KeepRadii | FreeOwnRadii | FreeCallerRadii

  /** `if (s->r) free(s->r);` as sasalib_calc_pdb and sasalib_link_coord write it. */
  function ReleaseAsWritten(hasRadii: bool, ownsRadii: bool): (a: Release)
    ensures a == KeepRadii <==> !hasRadii
    ensures a == FreeCallerRadii <==> hasRadii && !ownsRadii
  {
    if !hasRadii then KeepRadii
    else if ownsRadii then FreeOwnRadii
    else FreeCallerRadii
  }

  /** `if (s->owns_r) free(s->r);` as sasalib_free writes it. */
  function ReleaseRadii(hasRadii: bool, ownsRadii: bool): (a: Release)
    ensures a != FreeCallerRadii
    ensures a == FreeOwnRadii <==> hasRadii && ownsRadii
    ensures ownsRadii ==> a == ReleaseAsWritten(hasRadii, ownsRadii)
  {
    if hasRadii && ownsRadii then FreeOwnRadii else KeepRadii
  }
}
