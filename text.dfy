/** Blank checks and trimming. The two implementations disagree on what
    counts as whitespace: Python's `str.strip()` removes the characters for
    which `str.isspace()` holds, Java's `String.trim()` removes every
    character at or below U+0020. */
module Text {

  datatype Whitespace = PythonSpace | JavaTrim

  /** `c.isspace()` in Python: Unicode White_Space plus the separators
      U+001C..U+001F. */
  predicate IsPythonSpace(c: char) {
    ('\t' <= c <= '\r') || ('\U{1C}' <= c <= ' ')
    || c == '\U{85}' || c == '\U{A0}' || c == '\U{1680}'
    || ('\U{2000}' <= c <= '\U{200A}')
    || c == '\U{2028}' || c == '\U{2029}' || c == '\U{202F}' || c == '\U{205F}'
    || c == '\U{3000}'
  }

  predicate IsSpace(c: char, ws: Whitespace) {
    match ws
    case PythonSpace => IsPythonSpace(c)
    case JavaTrim => c <= ' '
  }

  /** How many whitespace characters `s` starts with. */
  function LeadingSpaces(s: string, ws: Whitespace): (n: nat)
    ensures n <= |s|
    ensures forall i :: 0 <= i < n ==> IsSpace(s[i], ws)
    ensures n == |s| || !IsSpace(s[n], ws)
  {
    if s == [] || !IsSpace(s[0], ws) then 0 else 1 + LeadingSpaces(s[1..], ws)
  }

  /** How many whitespace characters `s` ends with. */
  function TrailingSpaces(s: string, ws: Whitespace): (n: nat)
    ensures n <= |s|
    ensures forall i :: |s| - n <= i < |s| ==> IsSpace(s[i], ws)
    ensures n == |s| || !IsSpace(s[|s| - n - 1], ws)
  {
    if s == [] || !IsSpace(s[|s| - 1], ws) then 0 else 1 + TrailingSpaces(s[..|s| - 1], ws)
  }

  /** `strip()` / `trim()`: `s` without its leading and trailing whitespace. */
  function Trim(s: string, ws: Whitespace): (r: string)
  {
    var t := s[LeadingSpaces(s, ws)..];
    t[..|t| - TrailingSpaces(t, ws)]
  }

  /** `not s.strip()` / `s.trim().isEmpty()`. */
  predicate IsBlank(s: string, ws: Whitespace) {
    Trim(s, ws) == []
  }

  /** Trimming keeps a contiguous run of `s`, starting after its leading whitespace. */
  lemma TrimIsSlice(s: string, ws: Whitespace)
    ensures LeadingSpaces(s, ws) + |Trim(s, ws)| <= |s|
    ensures Trim(s, ws) == s[LeadingSpaces(s, ws)..LeadingSpaces(s, ws) + |Trim(s, ws)|]
  {
    var k := LeadingSpaces(s, ws);
    var t := s[k..];
    SliceOfSuffix(s, k, |t| - TrailingSpaces(t, ws));
  }

  lemma SliceOfSuffix(s: string, k: nat, m: nat)
    requires k <= |s| && m <= |s| - k
    ensures s[k..][..m] == s[k..k + m]
  {
  }

  /** Only whitespace follows the trimmed run. */
  lemma TrimCutsOnlySpace(s: string, ws: Whitespace)
    ensures LeadingSpaces(s, ws) + |Trim(s, ws)| <= |s|
    ensures forall i :: LeadingSpaces(s, ws) + |Trim(s, ws)| <= i < |s| ==> IsSpace(s[i], ws)
  {
    var k := LeadingSpaces(s, ws);
    var t := s[k..];
    var n := TrailingSpaces(t, ws);
    assert |Trim(s, ws)| == |t| - n;
    forall i | k + |t| - n <= i < |s| ensures IsSpace(s[i], ws) {
      assert s[i] == t[i - k];
    }
  }

  /** The trimmed run starts and ends with non-whitespace. */
  lemma TrimEnds(s: string, ws: Whitespace)
    ensures Trim(s, ws) != [] ==> !IsSpace(Trim(s, ws)[0], ws)
    ensures Trim(s, ws) != [] ==> !IsSpace(Trim(s, ws)[|Trim(s, ws)| - 1], ws)
  {
    var k := LeadingSpaces(s, ws);
    var t := s[k..];
    var n := TrailingSpaces(t, ws);
    var r := t[..|t| - n];
    assert r == Trim(s, ws);
    if r != [] {
      assert r[0] == t[0] == s[k];
      assert r[|r| - 1] == t[|t| - n - 1];
    }
  }

  /** A string is blank exactly when every character is whitespace. */
  lemma BlankIffAllSpace(s: string, ws: Whitespace)
    ensures IsBlank(s, ws) <==> forall i :: 0 <= i < |s| ==> IsSpace(s[i], ws)
  {
    var k := LeadingSpaces(s, ws);
    TrimIsSlice(s, ws);
    TrimEnds(s, ws);
    if !IsBlank(s, ws) {
      assert Trim(s, ws)[0] == s[k];
    }
  }

  /** Trimming twice changes nothing: a stored, trimmed description is its own trim. */
  lemma {:induction false} TrimIdempotent(s: string, ws: Whitespace)
    ensures Trim(Trim(s, ws), ws) == Trim(s, ws)
  {
    var r := Trim(s, ws);
    TrimIsSlice(s, ws);
    TrimEnds(s, ws);
    if r != [] {
      assert LeadingSpaces(r, ws) == 0;
      assert TrailingSpaces(r, ws) == 0;
    } else {
      assert LeadingSpaces(r, ws) == 0;
    }
  }

  /** The two rules disagree in both directions: a no-break space is blank for
      Python and not for Java, a NUL character the other way round. */
  lemma BlankRulesDiffer()
    ensures IsBlank("\U{A0}", PythonSpace) && !IsBlank("\U{A0}", JavaTrim)
    ensures !IsBlank("\U{0}", PythonSpace) && IsBlank("\U{0}", JavaTrim)
  {
    BlankIffAllSpace("\U{A0}", PythonSpace);
    BlankIffAllSpace("\U{A0}", JavaTrim);
    BlankIffAllSpace("\U{0}", PythonSpace);
    BlankIffAllSpace("\U{0}", JavaTrim);
  }
}
