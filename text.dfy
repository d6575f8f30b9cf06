/**
 * The Python string operations the resume code relies on, over `seq<char>`:
 * `str.isspace`, `str.strip`, `str.startswith`, `str.find`, `str.split(sep)`,
 * `sep.join(parts)`, a one-character `str.replace`, `str.upper` and `str(n)`.
 */
module Text {
  import opened Seqs

  /**
   * The characters Python's `str.isspace()` accepts: the ASCII blanks and
   * separators, NEL, no-break space, and the Unicode space separators and
   * line and paragraph separators.
   */
  const Whitespace: string :=
    " \t\n\r\U{B}\U{C}\U{1C}\U{1D}\U{1E}\U{1F}\U{85}\U{A0}\U{1680}"
    + "\U{2000}\U{2001}\U{2002}\U{2003}\U{2004}\U{2005}\U{2006}\U{2007}\U{2008}\U{2009}\U{200A}"
    + "\U{2028}\U{2029}\U{202F}\U{205F}\U{3000}"

  /** `c` is one of the characters of `chars`. */
  predicate OneOf(c: char, chars: string)
    decreases |chars|
  {
    chars != [] && (chars[0] == c || OneOf(c, chars[1..]))
  }

  /** Python's `str.isspace()` for one character. */
  predicate IsSpace(c: char)
  {
    OneOf(c, Whitespace)
  }

  /** Every character listed in `chars` is one of them. */
  lemma {:induction false} OneOfListed(chars: string, i: nat)
    requires i < |chars|
    ensures OneOf(chars[i], chars)
    decreases i
  {
    if i > 0 {
      OneOfListed(chars[1..], i - 1);
    }
  }

  predicate AllSpace(s: string)
  {
    forall i :: 0 <= i < |s| ==> IsSpace(s[i])
  }

  /** Every character of `s` at an index in [lo, hi) is whitespace. */
  predicate SpaceBetween(s: string, lo: int, hi: int)
  {
    forall i :: lo <= i < hi && 0 <= i < |s| ==> IsSpace(s[i])
  }

  /** Neither the first nor the last character is whitespace. */
  predicate Trimmed(s: string)
  {
    s == [] || (!IsSpace(s[0]) && !IsSpace(s[|s| - 1]))
  }

  /** The index of the first non-whitespace character at or after `i`, or `|s|`. */
  function LeadEnd(s: string, i: nat): (k: nat)
    requires i <= |s|
    decreases |s| - i
    ensures i <= k <= |s| && SpaceBetween(s, i, k)
    ensures k == |s| || !IsSpace(s[k])
  {
    if i < |s| && IsSpace(s[i]) then LeadEnd(s, i + 1) else i
  }

  /** The index just after the last non-whitespace character in [lo, j), or `lo`. */
  function TrailStart(s: string, lo: nat, j: nat): (k: nat)
    requires lo <= j <= |s|
    decreases j
    ensures lo <= k <= j && SpaceBetween(s, k, j)
    ensures k == lo || !IsSpace(s[k - 1])
  {
    if j > lo && IsSpace(s[j - 1]) then TrailStart(s, lo, j - 1) else j
  }

  /**
   * `r` is the slice of `s` starting at `lo` with only whitespace before and
   * after it, and `r` starts and ends with non-whitespace.
   */
  predicate StripsTo(s: string, lo: nat, r: string)
  {
    && lo + |r| <= |s| && r == s[lo..lo + |r|]
    && SpaceBetween(s, 0, lo) && SpaceBetween(s, lo + |r|, |s|)
    && Trimmed(r)
  }

  /** Python's `str.strip()`: the whitespace at both ends of `s` is removed and nothing else. */
  function Strip(s: string): (r: string)
    ensures StripsTo(s, LeadEnd(s, 0), r)
  {
    var lo := LeadEnd(s, 0);
    s[lo..TrailStart(s, lo, |s|)]
  }

  /** `strip()` is the only way to cut whitespace off both ends that leaves a trimmed text. */
  lemma StripUnique(s: string, lo: nat, r: string)
    requires StripsTo(s, lo, r)
    ensures Strip(s) == r
  {
    var lo0 := LeadEnd(s, 0);
    var r0 := Strip(s);
    if r != [] {
      assert !IsSpace(s[lo]);
      assert lo == lo0;
      assert !IsSpace(s[lo + |r| - 1]);
      assert |r| == |r0|;
    }
  }

  /** Stripping text that is already trimmed changes nothing. */
  lemma StripTrimmed(s: string)
    requires Trimmed(s)
    ensures Strip(s) == s
  {
    assert s[0..|s|] == s;
    StripUnique(s, 0, s);
  }

  /** Whitespace around a text does not survive `strip()`. */
  lemma StripPadding(a: string, x: string, b: string)
    requires AllSpace(a) && AllSpace(b)
    ensures Strip(a + x + b) == Strip(x)
  {
    var s := a + x + b;
    var xl := LeadEnd(x, 0);
    var r := Strip(x);
    var lo := |a| + xl;
    assert s[lo..lo + |r|] == x[xl..xl + |r|];
    assert SpaceBetween(s, 0, lo) by {
      forall i | 0 <= i < lo ensures IsSpace(s[i]) {
        if i < |a| { assert s[i] == a[i]; } else { assert s[i] == x[i - |a|]; }
      }
    }
    assert SpaceBetween(s, lo + |r|, |s|) by {
      forall i | lo + |r| <= i < |s| ensures IsSpace(s[i]) {
        if i < |a| + |x| { assert s[i] == x[i - |a|]; } else { assert s[i] == b[i - |a| - |x|]; }
      }
    }
    StripUnique(s, lo, r);
  }

  /** `sep` occurs in `s` starting at index `i`. */
  predicate OccursAt(s: string, sep: string, i: int)
  {
    0 <= i && i + |sep| <= |s| && s[i..i + |sep|] == sep
  }

  /** Python's `s.startswith(prefix)`. */
  predicate StartsWith(s: string, prefix: string)
  {
    OccursAt(s, prefix, 0)
  }

  function FindFrom(s: string, sep: string, k: nat): (i: int)
    requires sep != [] && k <= |s|
    decreases |s| - k
    ensures i == -1 || (k <= i && OccursAt(s, sep, i))
    ensures forall j :: k <= j && (i == -1 || j < i) ==> !OccursAt(s, sep, j)
  {
    if k + |sep| > |s| then -1
    else if s[k..k + |sep|] == sep then k
    else FindFrom(s, sep, k + 1)
  }

  /** Python's `s.find(sep)`: the first index at which `sep` occurs, or -1. */
  function Find(s: string, sep: string): (i: int)
    requires sep != []
    ensures i == -1 || OccursAt(s, sep, i)
    ensures forall j :: 0 <= j && (i == -1 || j < i) ==> !OccursAt(s, sep, j)
  {
    FindFrom(s, sep, 0)
  }

  /** The text before the first occurrence of `sep`, or all of `s`: Python's `s.split(sep)[0]`. */
  function TakeUntil(s: string, sep: string): (r: string)
    requires sep != []
    ensures |r| <= |s| && r == s[..|r|]
    ensures Find(r, sep) == -1
    ensures Find(s, sep) == -1 ==> r == s
  {
    var i := Find(s, sep);
    if i < 0 then s
    else
      assert forall j :: OccursAt(s[..i], sep, j) ==> OccursAt(s, sep, j) by {
        forall j | OccursAt(s[..i], sep, j) ensures OccursAt(s, sep, j) {
          assert s[..i][j..j + |sep|] == s[j..j + |sep|];
        }
      }
      s[..i]
  }

  /**
   * Python's `s.split(sep)` for a non-empty separator: the pieces between
   * successive non-overlapping occurrences of `sep`, scanning left to right.
   */
  function Split(s: string, sep: string): (parts: seq<string>)
    requires sep != []
    decreases |s|
    ensures |parts| >= 1
  {
    var i := Find(s, sep);
    if i < 0 then [s] else [s[..i]] + Split(s[i + |sep|..], sep)
  }

  /**
   * The first piece of a split is the text before the first separator; there is
   * a second piece exactly when the separator occurs, and it is the text between
   * the first and the second occurrence.
   */
  lemma SplitFront(s: string, sep: string)
    requires sep != []
    ensures Split(s, sep)[0] == TakeUntil(s, sep)
    ensures |Split(s, sep)| >= 2 <==> Find(s, sep) >= 0
    ensures |Split(s, sep)| >= 2 ==> Split(s, sep)[1] == TakeUntil(s[Find(s, sep) + |sep|..], sep)
  {
    var i := Find(s, sep);
    if i >= 0 {
      var rest := s[i + |sep|..];
      assert Split(rest, sep)[0] == TakeUntil(rest, sep) by {
        SplitFront(rest, sep);
      }
    }
  }

  /** Python's `sep.join(parts)`. */
  function Join(parts: seq<string>, sep: string): string
  {
    if parts == [] then ""
    else if |parts| == 1 then parts[0]
    else parts[0] + sep + Join(parts[1..], sep)
  }

  /** Joining a piece in front of at least one more piece puts the separator between them. */
  lemma JoinCons(x: string, xs: seq<string>, sep: string)
    requires xs != []
    ensures Join([x] + xs, sep) == x + sep + Join(xs, sep)
  {
    TailOfCons(x, xs);
  }

  /** Joining the pieces of a split with the same separator gives back the text. */
  lemma {:induction false} JoinSplit(s: string, sep: string)
    requires sep != []
    ensures Join(Split(s, sep), sep) == s
    decreases |s|
  {
    var i := Find(s, sep);
    if i < 0 {
      assert Split(s, sep) == [s];
    } else {
      var rest := s[i + |sep|..];
      assert Split(s, sep) == [s[..i]] + Split(rest, sep);
      JoinSplit(rest, sep);
      JoinCons(s[..i], Split(rest, sep), sep);
      assert s[i..i + |sep|] == sep;
      assert s == s[..i] + s[i..i + |sep|] + rest;
    }
  }

  lemma OccursAtChar(s: string, c: char, j: int)
    ensures OccursAt(s, [c], j) <==> 0 <= j < |s| && s[j] == c
  {
    if 0 <= j < |s| {
      assert s[j..j + 1] == [s[j]];
    }
  }

  lemma FindAbsentChar(a: string, c: char)
    requires c !in a
    ensures Find(a, [c]) == -1
  {
    var i := Find(a, [c]);
    if i != -1 {
      OccursAtChar(a, c, i);
    }
  }

  lemma FindFirstChar(a: string, c: char, b: string)
    requires c !in a
    ensures Find(a + [c] + b, [c]) == |a|
  {
    var s := a + [c] + b;
    var i := Find(s, [c]);
    OccursAtChar(s, c, |a|);
    if i != -1 {
      OccursAtChar(s, c, i);
    }
  }

  /**
   * For a one-character separator, splitting a join gives back the pieces,
   * provided no piece contains the separator.
   */
  lemma {:induction false} SplitJoinChar(parts: seq<string>, c: char)
    requires |parts| >= 1
    requires forall k :: 0 <= k < |parts| ==> c !in parts[k]
    ensures Split(Join(parts, [c]), [c]) == parts
    decreases |parts|
  {
    if |parts| == 1 {
      FindAbsentChar(parts[0], c);
    } else {
      var rest := Join(parts[1..], [c]);
      ConsTail(parts);
      JoinCons(parts[0], parts[1..], [c]);
      FindFirstChar(parts[0], c, rest);
      var s := parts[0] + [c] + rest;
      assert s[..|parts[0]|] == parts[0];
      assert s[|parts[0]| + 1..] == rest;
      SplitJoinChar(parts[1..], c);
    }
  }

  /** Python's `s.replace(from, to)` for single characters. */
  function ReplaceChar(s: string, from: char, to: char): (r: string)
    ensures |r| == |s|
    ensures forall i :: 0 <= i < |s| ==> r[i] == if s[i] == from then to else s[i]
  {
    seq(|s|, i requires 0 <= i < |s| => if s[i] == from then to else s[i])
  }

  function UpperChar(c: char): char
  {
    if 'a' <= c <= 'z' then (c as int - 32) as char else c
  }

  /**
   * Python's `str.upper()` restricted to ASCII letters: every lower-case letter
   * becomes its capital, every other character is kept, and none is left in
   * lower case.
   */
  function Upper(s: string): (r: string)
    ensures |r| == |s|
    ensures forall i :: 0 <= i < |s| ==> !('a' <= r[i] <= 'z')
    ensures forall i :: 0 <= i < |s| && !('a' <= s[i] <= 'z') ==> r[i] == s[i]
    ensures forall i :: 0 <= i < |s| && 'a' <= s[i] <= 'z' ==> 'A' <= r[i] <= 'Z' && r[i] as int == s[i] as int - 32
  {
    seq(|s|, i requires 0 <= i < |s| => UpperChar(s[i]))
  }

  /** Upper-casing twice is upper-casing once. */
  lemma UpperIdempotent(s: string)
    ensures Upper(Upper(s)) == Upper(s)
  {
  }

  /** Only lower-case letters change: a text with none of them is its own upper-case form. */
  lemma UpperFixed(s: string)
    ensures Upper(s) == s <==> forall i :: 0 <= i < |s| ==> !('a' <= s[i] <= 'z')
  {
    if forall i :: 0 <= i < |s| ==> !('a' <= s[i] <= 'z') {
      assert Upper(s) == s;
    }
  }

  function DigitChar(d: nat): char
    requires d < 10
  {
    "0123456789"[d]
  }

  /** Python's `str(n)` (the decimal digits of `n`, as an f-string prints them). */
  function NatToString(n: nat): (r: string)
    ensures |r| >= 1
    ensures n >= 10 ==> |r| >= 2
    decreases n
  {
    if n < 10 then [DigitChar(n)] else NatToString(n / 10) + [DigitChar(n % 10)]
  }

  /** Distinct numbers print differently. */
  lemma {:induction false} NatToStringInjective(a: nat, b: nat)
    requires NatToString(a) == NatToString(b)
    ensures a == b
    decreases a
  {
    if a >= 10 && b >= 10 {
      var sa, sb := NatToString(a), NatToString(b);
      assert DigitChar(a % 10) == sa[|sa| - 1] == sb[|sb| - 1] == DigitChar(b % 10);
      assert NatToString(a / 10) == sa[..|sa| - 1] == sb[..|sb| - 1] == NatToString(b / 10);
      NatToStringInjective(a / 10, b / 10);
    }
  }
}
