/** The digit filter of the read_digits application: `filter_non_digits`
    compacts a NUL-terminated character buffer in place so that only the
    decimal digits remain, in their original order, and returns how many
    were kept. */
module DigitFilter {
  import opened CString

  /** `isdigit` in the C locale. */
  predicate IsDigit(c: char) {
    '0' <= c <= '9'
  }

  predicate AllDigits(s: seq<char>) {
    forall i :: 0 <= i < |s| ==> IsDigit(s[i])
  }

  predicate NoDigits(s: seq<char>) {
    forall i :: 0 <= i < |s| ==> !IsDigit(s[i])
  }

  /** The digits of `s`, in the order they occur: what the filter keeps. */
  function Digits(s: seq<char>): seq<char>
  {
    if s == [] then []
    else Digits(s[..|s| - 1]) + (if IsDigit(s[|s| - 1]) then [s[|s| - 1]] else [])
  }

  /** `filter_non_digits(&buf[from])`, on a buffer whose C string starting
      at `from` ends at `end`: the digits of that string are moved to its
      front, a new terminator follows them, and their number is returned.
      Only the kept digits and the new terminator are written; every other
      byte is left as it was. */
  method FilterNonDigits(buf: array<char>, from: nat, ghost end: nat) returns (count: nat)
    requires TerminatedAt(buf, from, end)
    modifies buf
    ensures count <= end - from
    ensures buf[from..from + count] == Digits(old(buf[from..end]))
    ensures TerminatedAt(buf, from, from + count)
    ensures forall k :: 0 <= k < from || from + count < k < buf.Length ==> buf[k] == old(buf[k])
  {
    var to := CompactDigits(buf, from, end);
    ghost var kept := buf[from..to];
    buf[to] := NUL;
    count := to - from;
    assert buf[from..from + count] == kept;
    DigitsLength(old(buf[from..end]));
    DigitsAreDigits(old(buf[from..end]));
    forall k | from <= k < from + count ensures buf[k] != NUL {
      assert buf[k] == kept[k - from];
    }
  }

  /** The scanning loop of `filter_non_digits`: the read pointer `pFrom`
      (here `i`) walks the C string from `from` to its terminator at `end`,
      and each digit it meets is copied to the write pointer `pTo` (returned
      as `to`), which never overtakes it. */
  method CompactDigits(buf: array<char>, from: nat, ghost end: nat) returns (to: nat)
    requires from <= end < buf.Length && buf[end] == NUL
    requires forall k :: from <= k < end ==> buf[k] != NUL
    modifies buf
    ensures from <= to <= end
    ensures buf[from..to] == Digits(old(buf[from..end]))
    ensures forall k :: 0 <= k < from || to <= k < buf.Length ==> buf[k] == old(buf[k])
  {
    ghost var s := buf[from..end];
    var i := from;
    to := from;
    while buf[i] != NUL
      invariant from <= to <= i <= end
      invariant buf[from..to] == Digits(s[..i - from])
      invariant forall k :: 0 <= k < from || to <= k < buf.Length ==> buf[k] == old(buf[k])
      decreases end - i
    {
      var c := buf[i];
      DigitsSnoc(s, i - from);
      if IsDigit(c) {
        Extend(buf[..], from, to, c);
        buf[to] := c;
        to := to + 1;
      }
      i := i + 1;
    }
    assert s[..i - from] == s;
  }

  /** Writing `c` just past `b[from..to]` extends that slice by `c`. */
  lemma Extend(b: seq<char>, from: nat, to: nat, c: char)
    requires from <= to < |b|
    ensures b[to := c][from..to + 1] == b[from..to] + [c]
  {
  }

  /** Filtering one more character appends it exactly when it is a digit. */
  lemma DigitsSnoc(s: seq<char>, k: nat)
    requires k < |s|
    ensures Digits(s[..k + 1]) == Digits(s[..k]) + (if IsDigit(s[k]) then [s[k]] else [])
  {
    assert s[..k + 1][..k] == s[..k];
  }

  /** Every character the filter keeps is a digit. */
  lemma {:induction false} DigitsAreDigits(s: seq<char>)
    ensures AllDigits(Digits(s))
  {
    if s != [] {
      DigitsAreDigits(s[..|s| - 1]);
    }
  }

  /** The filter never lengthens its input. */
  lemma {:induction false} DigitsLength(s: seq<char>)
    ensures |Digits(s)| <= |s|
  {
    if s != [] {
      DigitsLength(s[..|s| - 1]);
    }
  }

  /** Filtering a concatenation filters each part: filtering only a newly
      appended tail and keeping the already filtered head gives the same
      digits as filtering everything. */
  lemma {:induction false} DigitsAppend(a: seq<char>, b: seq<char>)
    ensures Digits(a + b) == Digits(a) + Digits(b)
  {
    if b == [] {
      assert a + b == a;
    } else {
      var b' := b[..|b| - 1];
      assert (a + b)[..|a + b| - 1] == a + b';
      DigitsAppend(a, b');
    }
  }

  /** The filter keeps each digit as often as it occurs and drops every other
      character. */
  lemma {:induction false} DigitsMultiset(s: seq<char>, c: char)
    ensures multiset(Digits(s))[c] == if IsDigit(c) then multiset(s)[c] else 0
  {
    if s != [] {
      var s' := s[..|s| - 1];
      assert s == s' + [s[|s| - 1]];
      DigitsMultiset(s', c);
    }
  }

  /** A string of digits is left unchanged, and only a string of digits is. */
  lemma {:induction false} DigitsFixedPoint(s: seq<char>)
    ensures Digits(s) == s <==> AllDigits(s)
  {
    if s == [] {
    } else {
      var s' := s[..|s| - 1];
      DigitsFixedPoint(s');
      if AllDigits(s) {
        assert AllDigits(s');
        assert s == s' + [s[|s| - 1]];
      } else if Digits(s) == s {
        DigitsAreDigits(s);
      }
    }
  }

  /** Filtering the filter's output changes nothing. */
  lemma DigitsIdempotent(s: seq<char>)
    ensures Digits(Digits(s)) == Digits(s)
  {
    DigitsAreDigits(s);
    DigitsFixedPoint(Digits(s));
  }

  /** The filter yields the empty string exactly when there is no digit. */
  lemma {:induction false} DigitsEmpty(s: seq<char>)
    ensures Digits(s) == [] <==> NoDigits(s)
  {
    if s != [] {
      var s' := s[..|s| - 1];
      DigitsEmpty(s');
      if NoDigits(s) {
        assert NoDigits(s');
      } else if Digits(s) == [] {
        assert NoDigits(s') && !IsDigit(s[|s| - 1]);
        forall i | 0 <= i < |s| ensures !IsDigit(s[i]) {
          if i < |s| - 1 {
            assert s[i] == s'[i];
          }
        }
      }
    }
  }

  /** Filtering a single character. */
  lemma DigitsOfOne(c: char)
    ensures Digits([c]) == if IsDigit(c) then [c] else []
  {
    assert [c][..0] == [];
  }

  /** Non-digits inserted anywhere do not change what the filter keeps (the
      built-in test's `"*1234"`, `"12*34"`, `"1234*"` and `"*1*2*3*4*"` all
      give `"1234"`). */
  lemma DigitsIgnoresNonDigits(a: seq<char>, x: seq<char>, b: seq<char>)
    requires NoDigits(x)
    ensures Digits(a + x + b) == Digits(a + b)
  {
    DigitsEmpty(x);
    DigitsAppend(a, x);
    DigitsAppend(a + x, b);
    DigitsAppend(a, b);
  }

  /** The cases of the module's built-in test without digits: the string
      left is empty, and the count is 0. */
  lemma FilterTestCasesEmpty()
    ensures Digits("*****") == "" && Digits("*") == "" && Digits("") == ""
  {
    assert NoDigits("*****");
    DigitsEmpty("*****");
    DigitsOfOne('*');
  }

  /** The built-in test's case `"1234"`: a string of digits comes back whole. */
  lemma FilterTestCaseDigits()
    ensures Digits("1234") == "1234"
  {
    assert AllDigits("1234");
    DigitsFixedPoint("1234");
  }

  /** The built-in test's case `"*1234"`: a leading `*` is dropped. */
  lemma FilterTestCaseLeadingStar()
    ensures Digits("*1234") == "1234"
  {
    FilterTestCaseDigits();
    StarIgnored("", "1234", "*1234", "1234");
  }

  /** The built-in test's case `"12*34"`: an inner `*` is dropped. */
  lemma FilterTestCaseInnerStar()
    ensures Digits("12*34") == "1234"
  {
    FilterTestCaseDigits();
    StarIgnored("12", "34", "12*34", "1234");
  }

  /** The built-in test's case `"1234*"`: a trailing `*` is dropped. */
  lemma FilterTestCaseTrailingStar()
    ensures Digits("1234*") == "1234"
  {
    FilterTestCaseDigits();
    StarIgnored("1234", "", "1234*", "1234");
  }

  /** The built-in test's case `"*1*2*3*4*"`: every `*` is dropped. */
  lemma FilterTestCaseStars()
    ensures Digits("*1*2*3*4*") == "1234"
  {
    FilterTestCaseLeadingStar();
    StarIgnored("*1", "234", "*1*234", "*1234");
    StarIgnored("*1*2", "34", "*1*2*34", "*1*234");
    StarIgnored("*1*2*3", "4", "*1*2*3*4", "*1*2*34");
    StarIgnored("*1*2*3*4", "", "*1*2*3*4*", "*1*2*3*4");
  }

  /** `s`, which is `a` and `b` with a `*` between them, filters as `t`,
      which is `a` and `b` joined, does. */
  lemma StarIgnored(a: seq<char>, b: seq<char>, s: seq<char>, t: seq<char>)
    requires s == a + "*" + b && t == a + b
    ensures Digits(s) == Digits(t)
  {
    assert NoDigits("*");
    DigitsIgnoresNonDigits(a, "*", b);
  }
}
