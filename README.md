# sasalib calculation object, modelled in Dafny

This project models `sasalib_t`, the calculation object of the Sasalib library.
Sasalib computes the solvent accessible surface area (SASA) of a set of atoms.
The object holds five things:

- a parameter block: the algorithm selector (Lee & Richards or Shrake & Rupley),
  the Shrake-Rupley test-point count, the Lee-Richards slice width and a thread count;
- a radius buffer, which the object either owns or borrows from the caller (`owns_r`);
- the linked coordinates, and the classification of the atoms;
- the last result: per-atom areas, their total, and tables per atom class and per residue type;
- a protein name kept in a fixed-size character field.

The model is imperative, as the C is. `Library.Sasalib` is a class with the
struct's fields, and `Library.SasaResult` is a class over three arrays, as
`result_t` is. Methods that change the object have `modifies` clauses naming
the fields they assign. For the members modelled as written, these are exactly
the fields the C function assigns. The corrected `LinkCoord` and `Refresh` also
assign nAtoms, which their C counterparts do not. The `ensures` clauses tie the
new state to pure specification functions:

- `Params`: the validating setters and gated getters over a `ParamBlock` value;
- `Areas`: sums and per-id aggregation of areas, in exact arithmetic;
- `Names`: name truncation and reading back a NUL-terminated buffer;
- `Ownership`: what replacing the radius buffer frees.

The lemmas about those functions carry the properties: aggregation conserves
area, setters keep the parameter block consistent, round trips through the
getters, and name truncation is idempotent.

The collaborators that sasalib.c calls but does not define are values of
`Collaborators.Env`. The object receives them at construction as the constant
`env`. They are:

- the two geometric engines, as total functions that return one non-negative
  area per coordinate and a status code;
- the set of test-point counts that `srp_n_is_valid` accepts;
- the atom classifier, with class and residue-type ids guaranteed below
  `classify_nclasses()` and `classify_nresiduetypes()`, and with more than
  `ClassUnknown` classes, which sasalib.c does not check (see `AreaClass` under
  "## Left out").

The header sasalib.h is not part of this model. Some of its constants are
recovered from sasalib.c:

- `LeeRichards = 0` and `ShrakeRupley = 1` are the indices into `sasalib_alg_names`
  (lines 76 and 276).
- The class order `Polar` … `ClassUnknown` comes from the range check and message
  at lines 356-360. Their values, 0 to 3 with no gaps, are assumed.

The values of `DefaultSrPoints` (100), `DefaultLrDelta` (0.25) and `NameLimit` (30)
are assumed, as are the class values `Polar = 0`, `Apolar = 1`, `NucleicAcid = 2` and
`ClassUnknown = 3`. No proof depends on them beyond `NameLimit >= 5` and a default
width inside the accepted range.

Three behaviours a caller might not expect. The model follows the code in each:

- A calculation with an unknown algorithm has already discarded the previous
  result when it fails (lines 151-166). A caller might expect a failed
  calculation to keep the prior result.
- A rejected test-point count or slice width is replaced by the compile-time
  default, not by the previous value. A rejected selector or thread count
  keeps the previous value.
- The engine's status does not decide whether the object counts as calculated.
  Any known algorithm sets `calculated`.

## Model

| member | source | states |
|---|---|---|
| `Library.Sasalib.Init` | src/sasalib.c:60-74 | a new object has the default parameters, no radii, coordinates, classification or result, zero atoms, is not calculated, and its name reads back as "undef" |
| `Params.SetAlgorithm` | src/sasalib.c:259-266 | returns 0 exactly when the selector is Shrake-Rupley or Lee-Richards and then stores it; any other value returns 1 and leaves the block unchanged |
| `Params.SetSrPoints` | src/sasalib.c:279-291 | returns 0 exactly for a supported count, which is stored; an unsupported one returns 1 and overwrites the count with the default, not the previous value |
| `Params.SetLrDelta` | src/sasalib.c:299-310 | returns 0 exactly when 0 < d < 5.01 and stores d; otherwise returns 1 and overwrites the width with the default |
| `Params.SetNThreads` | src/sasalib.c:319-327 | returns 0 and stores n exactly when n > 0; otherwise returns 1 with the count unchanged |
| `Params.SrPoints` | src/sasalib.c:293-297 | the stored count while Shrake-Rupley is selected, -1 otherwise |
| `Params.TruncateToInt` | src/sasalib.c:314 | C's double-to-int conversion: the integer part, rounded toward zero |
| `Params.LrDeltaAsWritten` | src/sasalib.c:312-316 | as written: the width truncated to int while Lee-Richards is selected, -1 otherwise |
| `Params.LrDelta` | src/sasalib.c:312-316 | corrected: the width itself while Lee-Richards is selected, -1.0 otherwise |
| `Params.AlgorithmName` | src/sasalib.c:273-277 | a known selector names "Lee & Richards" or "Shrake & Rupley" as the names table orders them |
| `Params.DefaultsConsistent` | src/sasalib.c:60-74 | the default block selects a known algorithm, a valid width and a positive thread count |
| `Params.SettersKeepConsistent` | src/sasalib.c:259-327 | whatever values callers pass, every setter keeps the block consistent, so every block reached from `Defaults` through the setters has a known selector; this is a property of `ParamBlock` values, not part of the object invariant `Sasalib.Valid()` |
| `Params.RejectionsChangeNothing` | src/sasalib.c:259-327 | a rejected selector changes neither gated getter; a rejected thread count keeps the stored count |
| `Params.SrPointsRoundTrip` | src/sasalib.c:279-297 | with Shrake-Rupley selected, reading back a set count gives it if supported and the default otherwise |
| `Params.LrDeltaRoundTrip` | src/sasalib.c:299-316 | with Lee-Richards selected, reading back a set width gives it if in range and the default otherwise |
| `Params.AsWrittenLrDeltaDropsFraction` | src/sasalib.c:312-316 | an accepted width below 1 reads back as 0 through the int getter but as itself through the corrected one |
| `Library.Sasalib.SetAlgorithm` | src/sasalib.c:259-266 | changes only the selector, as `Params.SetAlgorithm` does, and returns its status |
| `Library.Sasalib.SetSrPoints` | src/sasalib.c:279-291 | changes only the test-point count, as `Params.SetSrPoints` does with the supported counts, and returns its status |
| `Library.Sasalib.SetLrDelta` | src/sasalib.c:299-310 | changes only the slice width, as `Params.SetLrDelta` does, and returns its status |
| `Library.Sasalib.SetNThreads` | src/sasalib.c:319-327 | changes only the thread count, as `Params.SetNThreads` does, and returns its status |
| `Library.Sasalib.CopyParam` | src/sasalib.c:190-196 | the target's four parameter fields become the source's; no other field changes |
| `Library.SasaResult.constructor` | src/sasalib.c:107-122 | a result with room for n areas and class and residue tables of the classifier's sizes, every table entry zero |
| `Library.SasaResult.Record` | src/sasalib.c:157-171 | the engine's areas fill the front of the buffer and the total is their sum |
| `Library.SasaResult.Accumulate` | src/sasalib.c:138-141 | each table entry grows by exactly the areas of the atoms whose id names it |
| `Library.Sasalib.Renew` | src/sasalib.c:151-153 | the previous result is replaced by a fresh one with nAtoms areas and zeroed tables |
| `Library.Sasalib.AggregateAfterCalc` | src/sasalib.c:232 | after a calculation over p, the tables become the per-id sums of its areas and each adds up to the total, which is kept |
| `Library.Classify` | src/sasalib.c:78-97 | one class id and one residue id per atom, each below its table size |
| `Library.ClassifyStructure` | src/sasalib.c:89-94 | the loop computes exactly the classifier applied to each atom |
| `Library.Sasalib.Run` | src/sasalib.c:155-163 | a known selector dispatches to its engine with the count or the width and the thread count, and gets one non-negative area per coordinate |
| `Library.Sasalib.Calc` | src/sasalib.c:144-181 | always replaces the result with a fresh one of nAtoms areas and zeroed tables; with a known selector it sets `calculated`, returns the engine's status whatever it is, and the total is the sum of the coordinates' areas and is non-negative; with an unknown one it returns 1 and leaves `calculated` as it was |
| `Library.Sasalib.GetClassResult` | src/sasalib.c:133-142 | stores the classification of p and adds to each class entry and each residue entry the areas of exactly the atoms with that id |
| `Library.Sasalib.CalcCoord` | src/sasalib.c:210-218 | sets nAtoms to n and calculates over the first n coordinates, with Calc's outcome |
| `Library.Sasalib.CalcDefaultRadii` | src/sasalib.c:223-234 | sets nAtoms to the structure's atom count and owns its default radii, then calculates. On status 0 the class and residue tables are the per-id sums of the areas, and each table adds up to the total. On any other status the tables stay zeroed and the classification is kept |
| `Library.Sasalib.CalcPdbAsWritten` | src/sasalib.c:220-235 | as written: frees the old radius buffer whenever one is present, the caller's included, then has the outcome of `CalcDefaultRadii` |
| `Library.Sasalib.CalcPdb` | src/sasalib.c:220-235 | corrected: frees the old radius buffer only when the object owns it, then has the outcome of `CalcDefaultRadii` |
| `Library.Sasalib.LinkCoordAsWritten` | src/sasalib.c:237-247 | as written: borrows the caller's coordinates and radius pointer, which may be NULL. Frees the old buffer whether or not it is owned, and leaves nAtoms unchanged |
| `Library.Sasalib.LinkCoord` | src/sasalib.c:237-247 | corrected: borrows the caller's coordinates and radius pointer, never frees a borrowed buffer, and sets nAtoms to n |
| `Library.Sasalib.RefreshAsWritten` | src/sasalib.c:249-257 | as written: returns 1 and changes nothing without linked coordinates and radii. Otherwise it recalculates them into a result of nAtoms entries and returns 0 whatever the calculation returned; `calculated` is set for a known selector and kept for an unknown one. It is callable only when the linked coordinates fit in nAtoms and the radii |
| `Library.Sasalib.Refresh` | src/sasalib.c:249-257 | corrected: returns 1 and changes nothing without linked coordinates and radii. Otherwise it sets nAtoms to the linked atom count and recalculates into a result of that size, returning 0 whatever the calculation returned; `calculated` is set for a known selector and kept for an unknown one |
| `Library.Sasalib.GetAlgorithm` | src/sasalib.c:268-271 | the selector of the parameter block, which `Params.AlgorithmRoundTrip` shows is the last one accepted |
| `Library.Sasalib.GetAlgorithmName` | src/sasalib.c:273-277 | for a known selector, "Lee & Richards" or "Shrake & Rupley" |
| `Library.Sasalib.GetSrPoints` | src/sasalib.c:293-297 | the gated count of `Params.SrPoints` for the current block |
| `Library.Sasalib.GetLrDelta` | src/sasalib.c:312-316 | corrected: the gated width of `Params.LrDelta` for the current block |
| `Library.Sasalib.GetNThreads` | src/sasalib.c:329-332 | the thread count of the parameter block, which `Params.NThreadsRoundTrip` shows is the last one accepted |
| `Library.Sasalib.NAtoms` | src/sasalib.c:335-338 | the atom count the next calculation sizes its result by |
| `Library.Sasalib.ProteinName` | src/sasalib.c:396-399 | the C string in the name field: a NUL-free prefix of the field, followed by a NUL unless it fills the field |
| `Params.AlgorithmRoundTrip` | src/sasalib.c:259-271 | reading back a set selector gives it if known, the previous one otherwise |
| `Params.NThreadsRoundTrip` | src/sasalib.c:319-332 | reading back a set thread count gives it if positive, the previous one otherwise |
| `Library.Sasalib.Free` | src/sasalib.c:198-208 | frees the radius buffer exactly when the object owns it |
| `Library.Sasalib.AreaTotal` | src/sasalib.c:340-348 | -1.0 before any calculation, the stored total after one |
| `Library.Sasalib.AreaClass` | src/sasalib.c:349-364 | only after a calculation and for a class from Polar to ClassUnknown: that class's entry, in bounds under the classifier assumption of "## Left out" |
| `Library.Sasalib.AreaAtomArray` | src/sasalib.c:366-374 | no array exactly when nothing has been calculated, otherwise the per-atom areas |
| `Library.Sasalib.RadiusAtom` | src/sasalib.c:375-382 | only for 0 <= i < nAtoms: the radius of atom i |
| `Library.Sasalib.SetProteinName` | src/sasalib.c:384-394 | the name read back from the field is the stored form of the argument, written within the field |
| `Names.Stored` | src/sasalib.c:384-394 | a name of at most NameLimit characters is kept whole; a longer one becomes "..." followed by its last NameLimit - 3 characters; no NUL is introduced |
| `Names.UntilNul` | src/sasalib.c:396-399 | reading a C string gives the longest NUL-free prefix of the buffer |
| `Names.TerminatedReadsBack` | src/sasalib.c:384-399 | a string written with its NUL reads back unchanged whatever follows it |
| `Names.StoredIdempotent` | src/sasalib.c:384-394 | storing a stored name again changes nothing |
| `Names.DeclaredFieldOverflows` | src/sasalib.c:57 | every name of NameLimit characters or more needs NameLimit + 1 bytes, one more than the declared field |
| `Names.FieldHoldsEveryName` | src/sasalib.c:384-394 | every stored name and its NUL fit in NameLimit + 1 bytes |
| `Names.StrCopy` | src/sasalib.c:388-392 | writes the string and its NUL at the offset and leaves the rest of the buffer unchanged |
| `Ownership.ReleaseAsWritten` | src/sasalib.c:242 | as written: any present buffer is freed, and it is the caller's exactly when the object does not own it |
| `Ownership.ReleaseRadii` | src/sasalib.c:201-203 | never frees the caller's buffer, frees exactly an owned one, and agrees with the unchecked release on owned buffers |
| `Areas.SumNonNegative` | src/sasalib.c:168-171 | the total of non-negative areas is non-negative |
| `Areas.AreaOfPrefixStep` | src/sasalib.c:138-141 | one more atom adds its area to the entry of its own id and to no other |
| `Areas.AccumulateStep` | src/sasalib.c:138-141 | one loop step of the aggregation updates only the entry of the atom's id, by the atom's area |
| `Areas.FreshTable` | src/sasalib.c:232 | aggregating into a zeroed table gives the per-id sums, which add up to the sum of the areas |
| `Areas.AggregateConserves` | src/sasalib.c:138-141 | when every id is below the table size, the table's entries add up to the sum of the per-atom areas |
| `Areas.AreaOfBounded` | src/sasalib.c:138-141 | with non-negative areas, each id's share lies between zero and the total |
| `Collaborators.Xyz` | src/sasalib.c:231 | one coordinate per atom of the structure |
| `Collaborators.DefaultRadii` | src/sasalib.c:229 | one radius per atom of the structure |
| `Scenarios.LinkTwiceFreesCallerRadii` | src/sasalib.c:237-247 | as written, linking twice frees the radii borrowed by the first link |
| `Scenarios.LinkTwiceKeepsCallerRadii` | src/sasalib.c:237-247 | corrected, linking twice frees nothing |
| `Scenarios.RefreshAfterLinkOverruns` | src/sasalib.c:249-257 | after linking six atoms to a new object as written, nAtoms is 0, so the result of refresh as written has 0 entries for 6 reads and its precondition fails. After the corrected link it holds |
| `Scenarios.RefreshWithoutRadiiFails` | src/sasalib.c:251-254 | after a link with a NULL radius pointer, refresh returns 1 and no total is available |
| `Scenarios.LinkThenCalcPdbFreesCallerRadii` | src/sasalib.c:226 | as written, calc_pdb after a link frees the radii the link borrowed |
| `Scenarios.LinkThenCalcPdbKeepsCallerRadii` | src/sasalib.c:220-247 | corrected, calc_pdb after a link frees nothing |
| `Scenarios.LinkedRefreshComputesTotal` | src/sasalib.c:340-348 | the total is -1.0 before any calculation; after link and refresh it is the sum of the engine's areas over the six atoms |
| `Scenarios.RejectedWidthFallsBack` | src/sasalib.c:299-310 | after an accepted width, a rejected one leaves the default in place, not the accepted one |

## Findings

| source | as written | input that shows it | evidently intended | confidence | as-written member | corrected member |
|---|---|---|---|---|---|---|
| src/sasalib.c:237-247 | `sasalib_link_coord` frees `s->r` without checking `owns_r`. `sasalib_calc_pdb` (line 226) does the same. A buffer borrowed from the caller is freed. | `sasalib_link_coord(s, xyz, r, 6)` twice on one object: the second call frees the caller's `r` | free `s->r` only when `owns_r` is set, as `sasalib_free` does (lines 201-203) | high, not executed | `Library.Sasalib.LinkCoordAsWritten`, `Library.Sasalib.CalcPdbAsWritten`, `Scenarios.LinkTwiceFreesCallerRadii`, `Scenarios.LinkThenCalcPdbFreesCallerRadii` | `Library.Sasalib.LinkCoord`, `Library.Sasalib.CalcPdb`, `Scenarios.LinkTwiceKeepsCallerRadii`, `Scenarios.LinkThenCalcPdbKeepsCallerRadii` |
| src/sasalib.c:249-257 | `sasalib_link_coord` never sets `n_atoms`. `refresh` then sizes the result by `n_atoms` (line 153), but its total loop reads `coord_n(c)` entries (line 169). | a new object, then `sasalib_link_coord(s, xyz, r, 6)` and `refresh(s)`: a 0-entry buffer, 6 reads | the atom count follows the linked coordinates | high, not executed | `Library.Sasalib.LinkCoordAsWritten`, `Library.Sasalib.RefreshAsWritten`, `Scenarios.RefreshAfterLinkOverruns` | `Library.Sasalib.LinkCoord`, `Library.Sasalib.Refresh` |
| src/sasalib.c:57 | `proteinname` holds `SASALIB_NAME_LIMIT` bytes. A name of `SASALIB_NAME_LIMIT` characters or more is written as that many characters plus a NUL. | any name of `SASALIB_NAME_LIMIT` characters | a field of `SASALIB_NAME_LIMIT + 1` bytes | high, not executed | `Names.DeclaredFieldOverflows` | `Library.Sasalib.SetProteinName`, `Names.FieldHoldsEveryName` |
| src/sasalib.c:312-316 | `sasalib_get_lr_delta` returns `int`, so the width is truncated. | `sasalib_set_lr_delta(s, 0.5)` with Lee-Richards selected: reads back 0 | return the width as a double, as `-1.0` and the setter suggest | medium, not executed | `Params.LrDeltaAsWritten`, `Params.AsWrittenLrDeltaDropsFraction` | `Params.LrDelta`, `Params.LrDeltaRoundTrip` |

## Left out

- The geometry of the two engines (`sasa_shrake_rupley`, `sasa_lee_richards`) is not modelled. They are foreign functions. The model keeps only their contract: one non-negative area per coordinate, and a status code.
- Threads are not modelled beyond the stored thread count, which is handed to the engines.
- `srp_n_is_valid` and `srp_print_n_opt` are not part of this model. The accepted counts are a set in `Env`.
- The `classify_*` functions are not part of this model. The classifier is a value in `Env`, with its ids in range and more than `ClassUnknown` classes.
- `Library.Sasalib.AreaClass`: the model assumes the classifier has more than `ClassUnknown` classes (`IdsInRange` in `Collaborators`). sasalib.c never checks this: line 363 indexes the class table, which has `classify_nclasses()` entries (lines 111 and 115), with any class up to `ClassUnknown`. With fewer classes the C reads past the table, and the model has no such case.
- PDB parsing (`structure_init_from_pdb`) is out of scope. `sasalib_calc_pdb` takes the parsed structure as input, and the default radii are a field of each atom.
- Timing (`gettimeofday`, `elapsed_time`) is wall-clock time and has no stated behaviour.
- The diagnostics on stderr are not modelled. Neither is `sasalib_log`, nor `sasalib_per_residue`, whose body is commented out.
- `exit(EXIT_FAILURE)` in `sasalib_area_class` and `sasalib_radius_atom` is modelled as a precondition.
- Allocation failure (`malloc` returning NULL) is not modelled: the C never checks for it.
- Deallocation is modelled only as the ownership decision for the radius buffer, reported as a `Release` value. The frees of the class table, the result and the coordinates are not tracked.
- Areas and the slice width are exact reals, not IEEE doubles. The sums hold in exact arithmetic. The bound 5.01 is compared exactly.
- `n_atoms` is an unbounded `nat`. The C truncates a `size_t` count into an `int`.
- The protein name is a sequence of characters with no interior NUL, standing for a C string.
- `Library.Sasalib.Calc`: says nothing about result entries past the coordinates, nor about the total after an unknown selector. The C leaves both uninitialized, and the model does not fix their values.
- `Library.Sasalib.Calc`: requires at least as many radii as coordinates, and no more coordinates than nAtoms. The C never checks either. The engines read one radius per coordinate, and the buffer has nAtoms entries.
- `Library.Sasalib.LinkCoord`, `Library.Sasalib.LinkCoordAsWritten`, `Library.Sasalib.Refresh` and `Library.Sasalib.RefreshAsWritten` do not capture aliasing. The C keeps pointers into the caller's coordinate and radius buffers, so a refresh sees whatever the caller has written there since the link. The model copies both as values at link time, so its refresh recalculates those values. A NULL radius pointer is modelled as `None`.
- `Library.Sasalib.RefreshAsWritten`: requires the linked coordinates to fit in nAtoms and in the radii. When they do not, the C reads and writes past its buffers, which has no model. `Scenarios.RefreshAfterLinkOverruns` shows the case arising.
- `Library.Sasalib.Refresh`: requires the stored radii to cover the linked coordinates. After a `sasalib_calc_pdb` between link and refresh, the C would read past the radii.
- `Library.Sasalib.RadiusAtom`: requires a radius buffer of at least nAtoms entries. The C dereferences `s->r` unchecked. After `sasalib_calc_coord` that buffer may be missing or belong to another structure.
- `Library.Sasalib.GetLrDelta` returns the corrected double. The int result as written is `Params.LrDeltaAsWritten`.
