/** NUL-terminated character buffers, as C keeps strings. */
module CString {

  /** The C string terminator. */
  const NUL: char := '\0'

  /** The index of the first NUL in `s`: the length of the C string it holds. */
  function StrLen(s: seq<char>): (n: nat)
    requires NUL in s
    ensures n < |s| && s[n] == NUL && forall k :: 0 <= k < n ==> s[k] != NUL
  {
    if s[0] == NUL then 0 else StrLen(s[1..]) + 1
  }

  /** The C string held at the start of `s`: everything before its first NUL. */
  function CStr(s: seq<char>): seq<char>
    requires NUL in s
  {
    s[..StrLen(s)]
  }

  /** A NUL at index `k` with none before it ends the C string there. */
  lemma CStrAt(s: seq<char>, k: nat)
    requires k < |s| && s[k] == NUL
    requires forall i :: 0 <= i < k ==> s[i] != NUL
    ensures NUL in s && StrLen(s) == k && CStr(s) == s[..k]
  {
    assert s[k] in s;
  }

  /** The C string starting at index `from` of `buf` ends at index `end`. */
  ghost predicate TerminatedAt(buf: array<char>, from: nat, end: nat)
    reads buf
  {
    from <= end < buf.Length && buf[end] == NUL &&
    forall k :: from <= k < end ==> buf[k] != NUL
  }

  /** Reads the C string at the start of `buf`, as a consumer of a `char *`
      (here `switch_channel_set_variable`) does: up to the first NUL. */
  method CopyCString(buf: array<char>) returns (s: string)
    requires NUL in buf[..]
    ensures s == CStr(buf[..])
  {
    ghost var n := StrLen(buf[..]);
    var i := 0;
    while buf[i] != NUL
      invariant i <= n
      decreases n - i
    {
      i := i + 1;
    }
    s := buf[..i];
  }
}
