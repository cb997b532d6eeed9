/** Text helpers shared by the formatters and the service: decimal rendering
    of integers as Rust's `Display` writes them, the inverse parse, lines
    terminated by '\n', and substring search as `str::contains` does it. */
module Text {
  import opened Wrappers

  /** Concatenation is associative; stated once so that proofs about long
      texts can use it without the solver rediscovering it element by element. */
  lemma Assoc<T>(a: seq<T>, b: seq<T>, c: seq<T>)
    ensures a + (b + c) == a + b + c
  {
  }

  /** Four elements appended one at a time are the four appended at once. */
  lemma Snoc4<T>(s: seq<T>, a: T, b: T, c: T, d: T)
    ensures s + [a] + [b] + [c] + [d] == s + [a, b, c, d]
  {
  }

  lemma Snoc6<T>(s: seq<T>, a: T, b: T, c: T, d: T, e: T, f: T)
    ensures s + [a] + [b] + [c] + [d] + [e] + [f] == s + [a, b, c, d, e, f]
  {
    Snoc4(s, a, b, c, d);
    assert s + [a, b, c, d] + [e] + [f] == s + [a, b, c, d, e, f];
  }

  // ---------------------------------------------------------------------
  // Decimal digits
  // ---------------------------------------------------------------------

  predicate IsDigit(c: char) {
    '0' <= c <= '9'
  }

  predicate AllDigits(s: string) {
    forall i :: 0 <= i < |s| ==> IsDigit(s[i])
  }

  predicate NoDigits(s: string) {
    forall i :: 0 <= i < |s| ==> !IsDigit(s[i])
  }

  function DigitChar(d: nat): (c: char)
    requires d < 10
    ensures IsDigit(c) && c as int - '0' as int == d
  {
    ('0' as int + d) as char
  }

  /** Decimal rendering of a non-negative integer (Rust `usize`/`u16` `Display`):
      no sign, no leading zeros. */
  function NatToString(n: nat): (s: string)
    ensures |s| > 0 && AllDigits(s)
    ensures |s| == 1 <==> n < 10
    ensures s[0] != '0' || n == 0
  {
    if n < 10 then [DigitChar(n)] else NatToString(n / 10) + [DigitChar(n % 10)]
  }

  /** Decimal rendering of a signed integer (Rust `i32` `Display`): a leading
      '-' for negative values, then the digits of the magnitude. */
  function IntToString(i: int): (s: string)
    ensures |s| > 0 && (s[0] == '-' <==> i < 0)
    ensures forall k :: 0 < k < |s| ==> IsDigit(s[k])
    ensures forall k :: 0 <= k < |s| ==> s[k] == '-' || IsDigit(s[k])
  {
    if i < 0 then "-" + NatToString(-i) else NatToString(i)
  }

  /** The value of a string of decimal digits. */
  function DigitsValue(s: string): nat
    requires AllDigits(s)
  {
    if s == [] then 0 else DigitsValue(s[..|s| - 1]) * 10 + (s[|s| - 1] as int - '0' as int)
  }

  /** Reads back what IntToString writes: an optional '-' and at least one digit. */
  function ParseInt(s: string): Option<int> {
    if |s| > 1 && s[0] == '-' && AllDigits(s[1..]) then Some(0 - DigitsValue(s[1..]) as int)
    else if |s| > 0 && AllDigits(s) then Some(DigitsValue(s))
    else None
  }

  lemma {:induction false} NatToStringRoundTrip(n: nat)
    ensures DigitsValue(NatToString(n)) == n
  {
    if n >= 10 {
      var s := NatToString(n);
      assert s[..|s| - 1] == NatToString(n / 10);
      NatToStringRoundTrip(n / 10);
    }
  }

  lemma IntToStringRoundTrip(i: int)
    ensures ParseInt(IntToString(i)) == Some(i)
  {
    if i < 0 {
      NatToStringRoundTrip(-i);
      assert IntToString(i)[1..] == NatToString(-i);
    } else {
      NatToStringRoundTrip(i);
    }
  }

  /** An HTTP status code (100..999) renders as exactly three digits. */
  lemma ThreeDigits(n: nat)
    requires 100 <= n < 1000
    ensures |NatToString(n)| == 3
  {
    assert NatToString(n) == NatToString(n / 10) + [DigitChar(n % 10)];
    assert NatToString(n / 10) == NatToString(n / 100) + [DigitChar(n / 10 % 10)];
  }

  // ---------------------------------------------------------------------
  // Searching
  // ---------------------------------------------------------------------

  /** Index of the first occurrence of c in s, or |s| when there is none. */
  function IndexOf(s: string, c: char): (k: nat)
    ensures k <= |s|
    ensures k < |s| ==> s[k] == c
    ensures forall i :: 0 <= i < k ==> s[i] != c
  {
    if s == [] then 0 else if s[0] == c then 0 else 1 + IndexOf(s[1..], c)
  }

  lemma IndexOfSplit(a: string, c: char, b: string)
    requires c !in a
    ensures IndexOf(a + [c] + b, c) == |a|
    ensures (a + [c] + b)[..|a|] == a && (a + [c] + b)[|a| + 1..] == b
  {
    var s := a + [c] + b;
    assert s[|a|] == c;
    assert forall i :: 0 <= i < |a| ==> s[i] == a[i];
  }

  lemma PrefixExtended(p: string, s: string, t: string)
    requires p <= s
    ensures p <= s + t
  {
    assert (s + t)[..|p|] == s[..|p|];
  }

  /** Index of the last occurrence of c in s, or -1 when there is none. */
  function LastIndexOf(s: string, c: char): (k: int)
    ensures -1 <= k < |s|
    ensures k >= 0 ==> s[k] == c
    ensures forall i :: k < i < |s| ==> s[i] != c
  {
    if s == [] then -1 else if s[|s| - 1] == c then |s| - 1 else LastIndexOf(s[..|s| - 1], c)
  }

  lemma LastIndexOfSplit(a: string, c: char, b: string)
    requires c !in b
    ensures LastIndexOf(a + [c] + b, c) == |a|
    ensures (a + [c] + b)[..|a|] == a && (a + [c] + b)[|a| + 1..] == b
  {
    var s := a + [c] + b;
    assert s[|a|] == c;
    assert forall i :: |a| < i < |s| ==> s[i] == b[i - |a| - 1];
  }

  /** The rest of s after the label, if s starts with it. */
  function StripPrefix(prefix: string, s: string): (r: Option<string>)
    ensures r.Some? <==> prefix <= s
    ensures r.Some? ==> s == prefix + r.value
  {
    if prefix <= s then Some(s[|prefix|..]) else None
  }

  lemma StripPrefixOf(prefix: string, x: string)
    ensures StripPrefix(prefix, prefix + x) == Some(x)
  {
    assert (prefix + x)[..|prefix|] == prefix;
    assert (prefix + x)[|prefix|..] == x;
  }

  /** `str::contains`: p occurs somewhere in s. */
  function Contains(s: string, p: string): bool
    decreases |s|
  {
    p <= s || (|s| > 0 && Contains(s[1..], p))
  }

  lemma {:induction false} ContainsAt(s: string, p: string, i: nat)
    requires i <= |s| && p <= s[i..]
    ensures Contains(s, p)
  {
    if i > 0 {
      assert s[1..][i - 1..] == s[i..];
      ContainsAt(s[1..], p, i - 1);
    }
  }

  lemma {:induction false} ContainsNowhere(s: string, p: string)
    requires forall i :: 0 <= i <= |s| ==> !(p <= s[i..])
    ensures !Contains(s, p)
  {
    assert s[0..] == s;
    if |s| > 0 {
      forall i | 0 <= i <= |s| - 1
        ensures !(p <= s[1..][i..])
      {
        assert s[1..][i..] == s[i + 1..];
      }
      ContainsNowhere(s[1..], p);
    }
  }

  // ---------------------------------------------------------------------
  // Lines
  // ---------------------------------------------------------------------

  predicate NoNewline(s: string) {
    '\n' !in s
  }

  predicate AllNoNewline(ls: seq<string>) {
    forall i :: 0 <= i < |ls| ==> NoNewline(ls[i])
  }

  /** Each line followed by its terminating '\n', in order. */
  function Unlines(ls: seq<string>): string {
    if ls == [] then "" else Unlines(ls[..|ls| - 1]) + ls[|ls| - 1] + "\n"
  }

  /** The lines of s, each without its '\n'; an unterminated tail is a last line. */
  function SplitLines(s: string): seq<string>
    decreases |s|
  {
    if s == [] then []
    else
      var k := IndexOf(s, '\n');
      if k < |s| then [s[..k]] + SplitLines(s[k + 1..]) else [s]
  }

  lemma UnlinesSnoc(ls: seq<string>, l: string)
    ensures Unlines(ls + [l]) == Unlines(ls) + l + "\n"
  {
    assert (ls + [l])[..|ls|] == ls;
  }

  lemma {:induction false} UnlinesAppend(a: seq<string>, b: seq<string>)
    ensures Unlines(a + b) == Unlines(a) + Unlines(b)
  {
    if b == [] {
      assert a + b == a;
    } else {
      var c := b[..|b| - 1];
      assert (a + b)[..|a + b| - 1] == a + c;
      UnlinesAppend(a, c);
      var x, y, z := Unlines(a), Unlines(c), b[|b| - 1];
      assert Unlines(a + b) == x + y + z + "\n";
      assert x + y + z + "\n" == x + (y + z + "\n");
    }
  }

  /** Splitting undoes joining, as long as no line holds a '\n' of its own. */
  lemma {:induction false} SplitUnlines(ls: seq<string>)
    requires AllNoNewline(ls)
    ensures SplitLines(Unlines(ls)) == ls
  {
    if ls != [] {
      var rest := Unlines(ls[1..]);
      UnlinesAppend([ls[0]], ls[1..]);
      assert [ls[0]] + ls[1..] == ls;
      assert Unlines([ls[0]]) == ls[0] + "\n" by {
        assert [ls[0]][..0] == [];
      }
      var s := ls[0] + "\n" + rest;
      assert s == ls[0] + ['\n'] + rest;
      IndexOfSplit(ls[0], '\n', rest);
      assert s[..|ls[0]|] == ls[0];
      assert s[|ls[0]| + 1..] == rest;
      SplitUnlines(ls[1..]);
    }
  }

  // ---------------------------------------------------------------------
  // Floating point rendering
  // ---------------------------------------------------------------------

  /** How f64 values are written: `display` is Rust's `{}` (used in URLs),
      `fixed(x, d)` is `{:.d}` (d digits after the point). Their digit-level
      behaviour is not modelled; every property of the model holds for any
      pair of such functions, and where a property needs it, for any pair
      that never writes a '\n' or, for `display` in the grid point URL,
      a ',' (Rust's f64 `Display` writes neither). */
  datatype FloatFormat = FloatFormat(display: real -> string, fixed: (real, nat) -> string)

  ghost predicate FixedIsOneLine(fmt: FloatFormat) {
    forall x: real, d: nat :: NoNewline(fmt.fixed(x, d))
  }

  lemma FixedOneLine(fmt: FloatFormat, x: real, d: nat)
    requires FixedIsOneLine(fmt)
    ensures NoNewline(fmt.fixed(x, d))
  {
  }
}
