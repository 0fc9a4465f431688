/** Python's `str.lower()` and `str.strip()` restricted to ASCII, the two
    string operations the services compare and normalise names with. */
module Text {

  /** `c.isspace()` for an ASCII `c`: space, `\t \n \v \f \r`, and the
      four separators `\x1c`..`\x1f`. */
  predicate IsSpace(c: char) {
    c == ' ' || '\t' <= c <= '\r' || '\U{1C}' <= c <= '\U{1F}'
  }

  predicate IsUpper(c: char) {
    'A' <= c <= 'Z'
  }

  /** `c.lower()` for an ASCII `c`. */
  function LowerChar(c: char): (r: char)
    ensures !IsUpper(r)
    ensures IsSpace(r) <==> IsSpace(c)
    ensures !IsUpper(c) ==> r == c
  {
    if IsUpper(c) then (c as int + 32) as char else c
  }

  /** `s.lower()`: every character lowered, the length kept. */
  function Lower(s: string): (r: string)
    ensures |r| == |s|
    ensures forall i :: 0 <= i < |s| ==> r[i] == LowerChar(s[i])
  {
    if s == [] then [] else [LowerChar(s[0])] + Lower(s[1..])
  }

  /** `s.lstrip()`: the suffix of `s` left after dropping leading whitespace. */
  function StripStart(s: string): (r: string)
    ensures |r| <= |s| && r == s[|s| - |r|..]
    ensures r == [] || !IsSpace(r[0])
    ensures forall i :: 0 <= i < |s| - |r| ==> IsSpace(s[i])
  {
    if s != [] && IsSpace(s[0]) then StripStart(s[1..]) else s
  }

  /** `s.rstrip()`: the prefix of `s` left after dropping trailing whitespace. */
  function StripEnd(s: string): (r: string)
    ensures |r| <= |s| && r == s[..|r|]
    ensures r == [] || !IsSpace(r[|r| - 1])
    ensures forall i :: |r| <= i < |s| ==> IsSpace(s[i])
  {
    if s != [] && IsSpace(s[|s| - 1]) then StripEnd(s[..|s| - 1]) else s
  }

  /** No whitespace at either end. */
  predicate Trimmed(s: string) {
    s == [] || (!IsSpace(s[0]) && !IsSpace(s[|s| - 1]))
  }

  /** `s.strip()`: the middle slice of `s` that neither starts nor ends with
      whitespace; everything cut off at either end is whitespace. */
  function Strip(s: string): (r: string)
    ensures Trimmed(r)
    ensures exists a, b :: 0 <= a <= b <= |s| && r == s[a..b] &&
              (forall i :: 0 <= i < a ==> IsSpace(s[i])) &&
              (forall i :: b <= i < |s| ==> IsSpace(s[i]))
  {
    var t := StripStart(s);
    var r := StripEnd(t);
    var a := |s| - |t|;
    assert r == s[a..a + |r|];
    r
  }

  /** The city-name key: `name.strip().lower()`. */
  function Normalize(name: string): string {
    Lower(Strip(name))
  }

  /** The form `strip().lower()` produces: no whitespace at either end and
      no upper-case letter. */
  predicate IsNormalized(s: string) {
    Trimmed(s) && forall i :: 0 <= i < |s| ==> !IsUpper(s[i])
  }

  /** `strip().lower()` always produces the normalised form. */
  lemma NormalizeIsNormalized(name: string)
    ensures IsNormalized(Normalize(name))
  {
  }

  /** A string is in normalised form exactly when `strip().lower()` leaves
      it unchanged. */
  lemma NormalizedIffFixed(s: string)
    ensures IsNormalized(s) <==> Normalize(s) == s
  {
  }

  /** Normalising a normalised name changes nothing. */
  lemma NormalizeIdempotent(name: string)
    ensures Normalize(Normalize(name)) == Normalize(name)
  {
  }

  /** Case-insensitive equality as the services write it: `a.lower() == b.lower()`. */
  predicate EqualsIgnoreCase(a: string, b: string) {
    Lower(a) == Lower(b)
  }
}
