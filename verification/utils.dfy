/** `_truncate_str` of the backend's utility module, with Python's slice semantics written out. */
module Utils {

  /** Python's `s[:n]` for any integer n; a negative n counts from the end of the string. */
  function PyPrefix(s: string, n: int): (r: string)
    ensures |r| <= |s| && r == s[..|r|]
    ensures 0 <= n ==> |r| == (if n <= |s| then n else |s|)
    ensures n < 0 ==> |r| == (if -n <= |s| then |s| + n else 0)
  {
    if n >= 0 then (if n <= |s| then s[..n] else s)
    else if -n <= |s| then s[..|s| + n] else ""
  }

  /** `_truncate_str(s, max_length)`: the string itself when short enough, else a cut copy ending in "...". */
  function TruncateStr(s: string, maxLength: int): (r: string)
    ensures |s| <= maxLength ==> r == s
    ensures 0 <= maxLength < |s| ==> r == s[..maxLength] + "..." && |r| == maxLength + 3
    ensures maxLength < 0 ==> r == PyPrefix(s, maxLength) + "..."
    ensures PyPrefix(s, maxLength) <= r
    ensures 0 <= maxLength ==> |r| <= maxLength + 3
  {
    if |s| > maxLength then PyPrefix(s, maxLength) + "..." else s
  }

  /** For a non-negative limit, truncating an already truncated string changes nothing. */
  lemma TruncateIdempotent(s: string, maxLength: int)
    requires 0 <= maxLength
    ensures TruncateStr(TruncateStr(s, maxLength), maxLength) == TruncateStr(s, maxLength)
  {
    if |s| > maxLength {
      var r := TruncateStr(s, maxLength);
      assert r[..maxLength] == s[..maxLength];
    }
  }

  /** A negative limit keeps cutting: truncating twice differs from truncating once. */
  lemma TruncateNegativeNotIdempotent()
    ensures TruncateStr("ab", -1) == "a..."
    ensures TruncateStr(TruncateStr("ab", -1), -1) == "a....."
    ensures |TruncateStr("ab", -1)| > -1 + 3
  {
    assert PyPrefix("ab", -1) == "a";
    assert PyPrefix("a...", -1) == "a..";
  }
}
