/**
 * The protein name of sasalib_t: a NUL-terminated string in a fixed-size
 * field, with long names cut down to an ellipsis and their tail.
 */
module Names {

  /** SASALIB_NAME_LIMIT: the most characters a stored name keeps. */
  const NameLimit: nat := 30
  const Nul: char := '\0'
  const Ellipsis: string := "..."

  /** The field as declared, char proteinname[SASALIB_NAME_LIMIT]. */
  const DeclaredFieldSize: nat := NameLimit
  /** The field the store needs: NameLimit characters and their NUL. */
  const FieldSize: nat := NameLimit + 1

  predicate EndsWith(s: string, t: string)
  {
    |t| <= |s| && s[|s| - |t|..] == t
  }

  /**
   * The characters sasalib_set_proteinname keeps: a name of at most
   * NameLimit characters whole, a longer one as "..." and its last
   * NameLimit - 3 characters.
   */
  function Stored(name: string): (s: string)
    ensures |s| == if |name| <= NameLimit then |name| else NameLimit
    ensures |name| <= NameLimit ==> s == name
    ensures |name| > NameLimit ==> s == Ellipsis + s[3..] && EndsWith(name, s[3..])
    ensures Nul !in name ==> Nul !in s
  {
    var n := |name|;
    if n > NameLimit then Ellipsis + name[n + 3 - NameLimit..] else name
  }

  /** A C string read out of a buffer: the longest prefix without a NUL. */
  function UntilNul(s: seq<char>): (t: seq<char>)
    ensures t <= s && Nul !in t
    ensures |t| < |s| ==> s[|t|] == Nul
  {
    if |s| == 0 || s[0] == Nul then [] else [s[0]] + UntilNul(s[1..])
  }

  /** A string written with its terminator reads back unchanged, whatever follows it. */
  lemma {:induction false} TerminatedReadsBack(t: string, rest: seq<char>)
    requires Nul !in t
    ensures UntilNul(t + [Nul] + rest) == t
  {
    if |t| > 0 {
      assert (t + [Nul] + rest)[1..] == t[1..] + [Nul] + rest;
      TerminatedReadsBack(t[1..], rest);
    }
  }

  /** Storing a stored name again changes nothing. */
  lemma StoredIdempotent(name: string)
    ensures Stored(Stored(name)) == Stored(name)
  {
  }

  /**
   * As declared, the field is one byte short: every name of NameLimit
   * characters or more is written as NameLimit characters and a NUL.
   */
  lemma DeclaredFieldOverflows(name: string)
    requires |name| >= NameLimit
    ensures |Stored(name) + [Nul]| == DeclaredFieldSize + 1
  {
  }

  lemma FieldHoldsEveryName(name: string)
    ensures |Stored(name) + [Nul]| <= FieldSize
  {
  }

  /** strcpy(buf + at, s), and sprintf(buf + at, "%s", s): s and its NUL, nothing else touched. */
  method StrCopy(buf: array<char>, at: nat, s: string)
    requires at + |s| < buf.Length
    modifies buf
    ensures buf[..at] == old(buf[..at])
    ensures buf[at..at + |s| + 1] == s + [Nul]
    ensures buf[at + |s| + 1..] == old(buf[at + |s| + 1..])
  {
    for i := 0 to |s|
      invariant buf[..at] == old(buf[..at])
      invariant buf[at..at + i] == s[..i]
      invariant buf[at + i..] == old(buf[at + i..])
    {
      buf[at + i] := s[i];
    }
    buf[at + |s|] := Nul;
  }
}
