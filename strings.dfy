/**
 * The handful of Python `str` operations the credential core relies on:
 * `startswith`, `in`, `"; ".join`, `lower`, `strip`, `rsplit("@", 1)`,
 * `split("+")[0]` and `split(" ", 1)[1]`.
 */
module Strings {
  import opened Common

  predicate StartsWith(s: string, prefix: string)
  {
    |prefix| <= |s| && s[..|prefix|] == prefix
  }

  /** Python's `needle in haystack` for two strings. */
  predicate Contains(haystack: string, needle: string)
    decreases |haystack|
  {
    StartsWith(haystack, needle) || (|haystack| > 0 && Contains(haystack[1..], needle))
  }

  lemma {:induction false} ContainsSlice(haystack: string, needle: string, k: nat)
    requires k + |needle| <= |haystack| && haystack[k..k + |needle|] == needle
    ensures Contains(haystack, needle)
    decreases k
  {
    if k != 0 {
      assert haystack[1..][k - 1..k - 1 + |needle|] == haystack[k..k + |needle|];
      ContainsSlice(haystack[1..], needle, k - 1);
    }
  }

  /** Every string contains itself, whatever surrounds it. */
  lemma {:induction false} ContainsInfix(a: string, needle: string, b: string)
    ensures Contains(a + needle + b, needle)
  {
    var h := a + needle + b;
    assert h[|a|..|a| + |needle|] == needle;
    ContainsSlice(h, needle, |a|);
  }

  lemma {:induction false} ContainsSelf(s: string)
    ensures Contains(s, s)
  {
    assert s[..|s|] == s;
  }

  /** A needle longer than the haystack does not occur in it. */
  lemma {:induction false} LongerNotContained(haystack: string, needle: string)
    requires |needle| > |haystack|
    ensures !Contains(haystack, needle)
    decreases |haystack|
  {
    if |haystack| > 0 {
      LongerNotContained(haystack[1..], needle);
    }
  }

  /** `sep.join(parts)`. */
  function Join(parts: seq<string>, sep: string): string
  {
    if |parts| == 0 then ""
    else if |parts| == 1 then parts[0]
    else parts[0] + sep + Join(parts[1..], sep)
  }

  /** `str.lower` on one character, restricted to the ASCII letters. */
  function LowerChar(c: char): (r: char)
    ensures 'A' <= c <= 'Z' ==> 'a' <= r <= 'z' && r as int == c as int + 32
    ensures !('A' <= c <= 'Z') ==> r == c
  {
    if 'A' <= c <= 'Z' then (c as int + 32) as char else c
  }

  function Lower(s: string): (r: string)
  {
    seq(|s|, i requires 0 <= i < |s| => LowerChar(s[i]))
  }

  predicate HasNoUpper(s: string)
  {
    forall i :: 0 <= i < |s| ==> !('A' <= s[i] <= 'Z')
  }

  /** Lower-casing leaves no ASCII capital behind and changes nothing a second time. */
  lemma {:induction false} LowerIsLowercase(s: string)
    ensures |Lower(s)| == |s|
    ensures HasNoUpper(Lower(s))
    ensures Lower(Lower(s)) == Lower(s)
  {
  }

  /** Lower-casing acts on each part of a concatenation separately. */
  lemma {:induction false} LowerConcat(a: string, b: string)
    ensures Lower(a + b) == Lower(a) + Lower(b)
  {
  }

  /** Lower-casing a string with no capital letter changes nothing. */
  lemma {:induction false} LowerOfLowercase(s: string)
    requires HasNoUpper(s)
    ensures Lower(s) == s
  {
  }

  /** Characters that are not ASCII capitals survive lower-casing exactly where they were. */
  lemma {:induction false} LowerKeepsNonLetter(s: string, c: char)
    requires !('A' <= c <= 'Z') && !('a' <= c <= 'z')
    ensures (c in Lower(s)) <==> (c in s)
  {
    if c in s {
      var i :| 0 <= i < |s| && s[i] == c;
      assert Lower(s)[i] == c;
    }
    if c in Lower(s) {
      var i :| 0 <= i < |s| && Lower(s)[i] == c;
      assert s[i] == c;
    }
  }

  /** Python's `str.isspace`: the characters whose bidirectional class is WS, B or S, or whose category is Zs. */
  predicate IsSpace(c: char)
  {
    var n := c as int;
    (0x09 <= n <= 0x0D) || (0x1C <= n <= 0x20) || n == 0x85 || n == 0xA0 || n == 0x1680
    || (0x2000 <= n <= 0x200A) || n == 0x2028 || n == 0x2029 || n == 0x202F || n == 0x205F
    || n == 0x3000
  }

  /** `str.lstrip()`: drop leading white space. */
  function TrimStart(s: string): (r: string)
    ensures |r| <= |s| && r == s[|s| - |r|..]
    ensures forall i :: 0 <= i < |s| - |r| ==> IsSpace(s[i])
    ensures r != [] ==> !IsSpace(r[0])
    decreases |s|
  {
    if s != [] && IsSpace(s[0]) then TrimStart(s[1..]) else s
  }

  /** `str.rstrip()`: drop trailing white space. */
  function TrimEnd(s: string): (r: string)
    ensures |r| <= |s| && r == s[..|r|]
    ensures forall i :: |r| <= i < |s| ==> IsSpace(s[i])
    ensures r != [] ==> !IsSpace(r[|r| - 1])
    decreases |s|
  {
    if s != [] && IsSpace(s[|s| - 1]) then TrimEnd(s[..|s| - 1]) else s
  }

  /** `str.strip()`. */
  function Strip(s: string): string
  {
    TrimEnd(TrimStart(s))
  }

  /**
   * What `strip` promises: the result is a contiguous piece of the input, white
   * space is all that was cut away on either side, and the result neither starts
   * nor ends with white space.
   */
  lemma {:induction false} StripIsTrimmedInfix(s: string)
    ensures var lo := |s| - |TrimStart(s)|;
      lo + |Strip(s)| <= |s| && Strip(s) == s[lo..lo + |Strip(s)|]
      && (forall i :: 0 <= i < lo ==> IsSpace(s[i]))
      && (forall i :: lo + |Strip(s)| <= i < |s| ==> IsSpace(s[i]))
    ensures Strip(s) != [] ==> !IsSpace(Strip(s)[0]) && !IsSpace(Strip(s)[|Strip(s)| - 1])
  {
    StripIsInfix(s);
    StripCutsTrailingSpace(s);
    StripEndsWithoutSpace(s);
  }

  lemma {:induction false} StripIsInfix(s: string)
    ensures var lo := |s| - |TrimStart(s)|;
      lo + |Strip(s)| <= |s| && Strip(s) == s[lo..lo + |Strip(s)|]
  {
    var t := TrimStart(s);
    var r := TrimEnd(t);
    assert Strip(s) == r;
    PrefixOfSuffix(s, t, |s| - |t|, r);
  }

  /** A prefix of a suffix of `s` is a slice of `s`. */
  lemma {:induction false} PrefixOfSuffix(s: string, t: string, lo: int, r: string)
    requires 0 <= lo <= |s| && t == s[lo..] && |r| <= |t| && r == t[..|r|]
    ensures lo + |r| <= |s| && r == s[lo..lo + |r|]
  {
  }

  lemma {:induction false} StripCutsTrailingSpace(s: string)
    ensures var lo := |s| - |TrimStart(s)|;
      forall i :: lo + |Strip(s)| <= i < |s| ==> IsSpace(s[i])
  {
    var t := TrimStart(s);
    var r := TrimEnd(t);
    SpacesOfSuffix(s, t, |s| - |t|, |r|);
  }

  /** White space at the end of a suffix of `s` is white space at the end of `s`. */
  lemma {:induction false} SpacesOfSuffix(s: string, t: string, lo: int, n: int)
    requires 0 <= lo <= |s| && t == s[lo..] && 0 <= n <= |t|
    requires forall i :: n <= i < |t| ==> IsSpace(t[i])
    ensures forall i :: lo + n <= i < |s| ==> IsSpace(s[i])
  {
    forall i | lo + n <= i < |s| ensures IsSpace(s[i]) {
      assert s[i] == t[i - lo];
    }
  }

  lemma {:induction false} StripEndsWithoutSpace(s: string)
    ensures Strip(s) != [] ==> !IsSpace(Strip(s)[0]) && !IsSpace(Strip(s)[|Strip(s)| - 1])
  {
    var t := TrimStart(s);
    var r := TrimEnd(t);
    if r != [] {
      assert r[0] == t[0];
    }
  }

  /** Position of the last occurrence of `c`, as `str.rfind` finds it. */
  function LastIndexOf(s: string, c: char): (r: int)
    ensures -1 <= r < |s|
    ensures r >= 0 ==> s[r] == c
    ensures forall j :: r < j < |s| ==> s[j] != c
    decreases |s|
  {
    if s == [] then -1
    else if s[|s| - 1] == c then |s| - 1
    else LastIndexOf(s[..|s| - 1], c)
  }

  /** `s.split(sep)[0]` for a one-character separator: everything before the first `sep`. */
  function BeforeFirst(s: string, sep: char): (r: string)
    ensures |r| <= |s| && r == s[..|r|]
    ensures sep !in r
    ensures |r| < |s| ==> s[|r|] == sep
    decreases |s|
  {
    if s == [] || s[0] == sep then [] else [s[0]] + BeforeFirst(s[1..], sep)
  }

  /** The last `c` of `a + [c] + b` is the one after `a` when `b` has none. */
  lemma {:induction false} LastIndexOfJoin(a: string, c: char, b: string)
    requires c !in b
    ensures LastIndexOf(a + [c] + b, c) == |a|
    decreases |b|
  {
    var s := a + [c] + b;
    if b != [] {
      assert s[|s| - 1] == b[|b| - 1];
      assert s[..|s| - 1] == a + [c] + b[..|b| - 1];
      LastIndexOfJoin(a, c, b[..|b| - 1]);
    }
  }

  /** `(a + sep + b).split(sep)[0] == a` when `a` has no `sep`. */
  lemma {:induction false} BeforeFirstJoin(a: string, sep: char, b: string)
    requires sep !in a
    ensures BeforeFirst(a + [sep] + b, sep) == a
    decreases |a|
  {
    var s := a + [sep] + b;
    if a != [] {
      assert s[0] == a[0];
      assert s[1..] == a[1..] + [sep] + b;
      BeforeFirstJoin(a[1..], sep, b);
      assert [a[0]] + a[1..] == a;
    }
  }

  /** Without `sep`, `s.split(sep)[0]` is all of `s`. */
  lemma {:induction false} BeforeFirstAbsent(s: string, sep: char)
    requires sep !in s
    ensures BeforeFirst(s, sep) == s
    decreases |s|
  {
    if s != [] {
      assert s[0] in s;
      assert s == [s[0]] + s[1..];
      BeforeFirstAbsent(s[1..], sep);
    }
  }

  /** `s.split(sep, 1)[1]` for a one-character separator; `None` when indexing `[1]` raises. */
  function AfterFirst(s: string, sep: char): (r: Option<string>)
  {
    var head := BeforeFirst(s, sep);
    if |head| == |s| then None else Some(s[|head| + 1..])
  }

  /** The part after a leading `"Bearer "` is exactly what `split(" ", 1)[1]` returns. */
  lemma {:induction false} AfterFirstSpaceOfBearer(h: string)
    requires StartsWith(h, "Bearer ")
    ensures AfterFirst(h, ' ') == Some(h[7..])
  {
    assert h[..7] == "Bearer ";
    assert h[0] != ' ';
    var head := BeforeFirst(h, ' ');
    assert forall i :: 0 <= i < 6 ==> h[i] != ' ';
    assert h[6] == ' ';
    assert |head| == 6;
  }

  /** The decimal digits of a natural number, most significant first. */
  function NatDigits(n: nat): (r: string)
    ensures r != [] && forall i :: 0 <= i < |r| ==> '0' <= r[i] <= '9'
    ensures n >= 10 ==> |r| >= 2
    decreases n
  {
    if n < 10 then [('0' as int + n) as char]
    else NatDigits(n / 10) + [('0' as int + n % 10) as char]
  }

  /** `str(n)` for an `int`, which is how an application id becomes a hash namespace. */
  function Decimal(n: int): (r: string)
    ensures r != [] && ':' !in r
  {
    if n < 0 then "-" + NatDigits(-n) else NatDigits(n)
  }

  lemma {:induction false} NatDigitsInjective(a: nat, b: nat)
    requires NatDigits(a) == NatDigits(b)
    ensures a == b
    decreases a
  {
    var s := NatDigits(a);
    if a >= 10 && b >= 10 {
      assert s[|s| - 1] == ('0' as int + a % 10) as char == ('0' as int + b % 10) as char;
      assert s[..|s| - 1] == NatDigits(a / 10) == NatDigits(b / 10);
      NatDigitsInjective(a / 10, b / 10);
    }
  }

  /** Distinct integers have distinct decimal forms. */
  lemma {:induction false} DecimalInjective(a: int, b: int)
    requires Decimal(a) == Decimal(b)
    ensures a == b
  {
    assert (Decimal(a)[0] == '-') == (a < 0) && (Decimal(b)[0] == '-') == (b < 0);
    if a < 0 {
      assert Decimal(a)[1..] == NatDigits(-a) && Decimal(b)[1..] == NatDigits(-b);
      NatDigitsInjective(-a, -b);
    } else {
      NatDigitsInjective(a, b);
    }
  }
}
