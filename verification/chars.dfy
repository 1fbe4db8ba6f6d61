/** Character classes of Python's `re` module on `str` patterns, and `str.strip()`. */
module Chars {

  /** `\d`, restricted to the ASCII digits '0'..'9'. */
  predicate IsDigit(c: char) {
    '0' <= c <= '9'
  }

  /** `\s` on a `str` pattern: exactly the characters for which `str.isspace()` holds.
      The same set is what `str.strip()` without arguments removes. */
  predicate IsSpace(c: char) {
    || ('\t' <= c <= '\r')              // tab, line feed, vertical tab, form feed, carriage return
    || ('\U{1C}' <= c <= '\U{1F}')      // file, group, record and unit separators
    || c == ' '
    || c == '\U{85}'                    // next line
    || c == '\U{A0}'                    // no-break space
    || c == '\U{1680}'                  // ogham space mark
    || ('\U{2000}' <= c <= '\U{200A}')  // en quad .. hair space
    || c == '\U{2028}'                  // line separator
    || c == '\U{2029}'                  // paragraph separator
    || c == '\U{202F}'                  // narrow no-break space
    || c == '\U{205F}'                  // medium mathematical space
    || c == '\U{3000}'                  // ideographic space
  }

  /** `[\d:]`, the class of the running-score group. */
  predicate IsScoreChar(c: char) {
    IsDigit(c) || c == ':'
  }

  /** `.` without DOTALL: anything but a line feed. */
  predicate IsLineChar(c: char) {
    c != '\n'
  }

  /** The character classes the patterns of main.py are built from. */
  datatype Class = Digit | Space | Score | Line

  predicate InClass(c: char, cls: Class) {
    match cls
    case Digit => IsDigit(c)
    case Space => IsSpace(c)
    case Score => IsScoreChar(c)
    case Line => IsLineChar(c)
  }

  predicate AllDigits(s: string) {
    forall k :: 0 <= k < |s| ==> IsDigit(s[k])
  }

  predicate AllScoreChars(s: string) {
    forall k :: 0 <= k < |s| ==> IsScoreChar(s[k])
  }

  /** Length of the run of characters of class `cls` that starts at `i`; this is
      what a greedy quantifier over `cls` takes before any backtracking. */
  function RunLength(s: string, i: nat, cls: Class): (n: nat)
    requires i <= |s|
    ensures i + n <= |s|
    decreases |s| - i
  {
    if i < |s| && InClass(s[i], cls) then 1 + RunLength(s, i + 1, cls) else 0
  }

  /** The run is the longest one: all its characters are in the class and the
      character after it, if any, is not. */
  lemma {:induction false} RunLengthIsMaximal(s: string, i: nat, cls: Class)
    requires i <= |s|
    ensures forall k :: i <= k < i + RunLength(s, i, cls) ==> InClass(s[k], cls)
    ensures i + RunLength(s, i, cls) == |s| || !InClass(s[i + RunLength(s, i, cls)], cls)
    decreases |s| - i
  {
    if i < |s| && InClass(s[i], cls) {
      RunLengthIsMaximal(s, i + 1, cls);
    }
  }

  /** Drops trailing whitespace. */
  function StripRight(s: string): (r: string)
    ensures |r| <= |s| && r == s[..|r|]
    ensures forall k :: |r| <= k < |s| ==> IsSpace(s[k])
    ensures r == [] || !IsSpace(r[|r| - 1])
  {
    if |s| > 0 && IsSpace(s[|s| - 1]) then StripRight(s[..|s| - 1]) else s
  }

  /** `str.strip()`: the slice left after removing leading and trailing whitespace. */
  function Strip(s: string): (r: string)
    ensures RunLength(s, 0, Space) + |r| <= |s|
    ensures r == s[RunLength(s, 0, Space)..RunLength(s, 0, Space) + |r|]
    ensures forall k :: 0 <= k < RunLength(s, 0, Space) ==> IsSpace(s[k])
    ensures forall k :: RunLength(s, 0, Space) + |r| <= k < |s| ==> IsSpace(s[k])
    ensures r == [] || (!IsSpace(r[0]) && !IsSpace(r[|r| - 1]))
  {
    RunLengthIsMaximal(s, 0, Space);
    StripRight(s[RunLength(s, 0, Space)..])
  }

  /** Stripping twice is stripping once. */
  lemma StripIsIdempotent(s: string)
    ensures Strip(Strip(s)) == Strip(s)
  {
    var r := Strip(s);
    assert RunLength(r, 0, Space) == 0;
    assert r[0..] == r;
  }
}
