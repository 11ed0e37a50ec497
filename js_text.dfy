/**
 * The two JavaScript string builtins the ingestion code leans on:
 * `String.prototype.trim` and `String.prototype.indexOf`.
 */
module JsText {

  /**
   * The code points ECMAScript counts as WhiteSpace or LineTerminator,
   * which is exactly what `trim` strips from both ends of a string.
   */
  predicate IsWhitespace(c: char) {
    var n := c as int;
    n == 0x09 || n == 0x0A || n == 0x0B || n == 0x0C || n == 0x0D || n == 0x20
    || n == 0xA0 || n == 0x1680 || (0x2000 <= n <= 0x200A)
    || n == 0x2028 || n == 0x2029 || n == 0x202F || n == 0x205F
    || n == 0x3000 || n == 0xFEFF
  }

  /** Every character of `s` is whitespace (the empty string included). */
  predicate IsBlank(s: string) {
    forall i :: 0 <= i < |s| ==> IsWhitespace(s[i])
  }

  /** How many whitespace characters `s` starts with. */
  function LeadingWhitespace(s: string): (n: nat)
    ensures n <= |s|
    ensures forall k :: 0 <= k < n ==> IsWhitespace(s[k])
    ensures n < |s| ==> !IsWhitespace(s[n])
  {
    if s == [] || !IsWhitespace(s[0]) then 0 else 1 + LeadingWhitespace(s[1..])
  }

  /** How many whitespace characters `s` ends with. */
  function TrailingWhitespace(s: string): (n: nat)
    ensures n <= |s|
    ensures forall k :: |s| - n <= k < |s| ==> IsWhitespace(s[k])
    ensures n < |s| ==> !IsWhitespace(s[|s| - n - 1])
  {
    if s == [] || !IsWhitespace(s[|s| - 1]) then 0 else 1 + TrailingWhitespace(s[..|s| - 1])
  }

  /**
   * `s.trim()`: `s` with its leading and trailing whitespace removed.
   * The result is a contiguous piece of `s` with only whitespace cut off
   * either side, and it is empty exactly when `s` is blank.
   */
  function Trim(s: string): (t: string)
    ensures |t| <= |s|
    ensures t == [] <==> IsBlank(s)
    ensures t != [] ==> !IsWhitespace(t[0]) && !IsWhitespace(t[|t| - 1])
    ensures exists i :: 0 <= i <= |s| - |t| && s[i..i + |t|] == t && IsBlank(s[..i]) && IsBlank(s[i + |t|..])
  {
    var i := LeadingWhitespace(s);
    if i == |s| then
      assert s[..i] == s;
      []
    else
      var j := |s| - TrailingWhitespace(s);
      assert IsBlank(s[..i]);
      assert IsBlank(s[j..]);
      s[i..j]
  }

  /**
   * `s.indexOf(c)`: the position of the first `c` in `s`, or -1 when
   * `s` holds none.
   */
  function IndexOf(s: string, c: char): (i: int)
    ensures -1 <= i < |s|
    ensures i == -1 <==> c !in s
    ensures i >= 0 ==> s[i] == c && c !in s[..i]
  {
    if s == [] then -1
    else if s[0] == c then 0
    else
      var j := IndexOf(s[1..], c);
      if j == -1 then -1
      else
        assert s[..j + 1] == [s[0]] + s[1..][..j];
        j + 1
  }
}
