/** The few JavaScript string operations the server applies to chat input:
    `String.prototype.trim`, `slice(0, n)` and the decimal rendering of an
    integer millisecond clock inside an entry id. Strings are sequences of
    characters; one `char` stands for one UTF-16 code unit. */
module JsText {

  /** ECMAScript WhiteSpace and LineTerminator code points, the set that
      `trim` strips from both ends. */
  predicate IsWhiteSpace(c: char)
  {
    var n := c as int;
    || n == 0x09 || n == 0x0A || n == 0x0B || n == 0x0C || n == 0x0D
    || n == 0x20 || n == 0xA0 || n == 0x1680
    || (0x2000 <= n <= 0x200A)
    || n == 0x2028 || n == 0x2029 || n == 0x202F || n == 0x205F
    || n == 0x3000 || n == 0xFEFF
  }

  predicate AllWhiteSpace(s: string)
  {
    forall i :: 0 <= i < |s| ==> IsWhiteSpace(s[i])
  }

  /** The index of the first non-white-space character at or after `i`,
      or `|s|` if there is none. */
  function SkipSpace(s: string, i: nat): (k: nat)
    requires i <= |s|
    ensures i <= k <= |s|
    ensures forall m :: i <= m < k ==> IsWhiteSpace(s[m])
    ensures k < |s| ==> !IsWhiteSpace(s[k])
    decreases |s| - i
  {
    if i < |s| && IsWhiteSpace(s[i]) then SkipSpace(s, i + 1) else i
  }

  /** Scanning back from `j` towards `lo`: the end of the last
      non-white-space character, or `lo` if there is none. */
  function SkipSpaceBack(s: string, lo: nat, j: nat): (k: nat)
    requires lo <= j <= |s|
    ensures lo <= k <= j
    ensures forall m :: k <= m < j ==> IsWhiteSpace(s[m])
    ensures k > lo ==> !IsWhiteSpace(s[k - 1])
    decreases j
  {
    if j > lo && IsWhiteSpace(s[j - 1]) then SkipSpaceBack(s, lo, j - 1) else j
  }

  /** `s.trim()`. It is empty exactly when `s` holds nothing but white space,
      and otherwise neither starts nor ends with white space. */
  function Trim(s: string): (r: string)
    ensures |r| <= |s|
    ensures r == [] <==> AllWhiteSpace(s)
    ensures r != [] ==> !IsWhiteSpace(r[0]) && !IsWhiteSpace(r[|r| - 1])
  {
    var lo := SkipSpace(s, 0);
    var hi := SkipSpaceBack(s, lo, |s|);
    assert lo < |s| ==> hi > lo;
    s[lo..hi]
  }

  /** The trimmed string is a slice of `s` with only white space before it
      and only white space after it. */
  lemma TrimIsInnerSlice(s: string)
    ensures exists lo, hi :: 0 <= lo <= hi <= |s| && Trim(s) == s[lo..hi]
                             && AllWhiteSpace(s[..lo]) && AllWhiteSpace(s[hi..])
  {
    var lo := SkipSpace(s, 0);
    var hi := SkipSpaceBack(s, lo, |s|);
    assert Trim(s) == s[lo..hi];
    assert AllWhiteSpace(s[..lo]);
    assert AllWhiteSpace(s[hi..]);
  }

  /** `trim` removes exactly the white-space padding: a text that neither
      starts nor ends with white space comes back unchanged from between
      any two runs of white space. */
  lemma TrimOfPadded(a: string, t: string, b: string)
    requires AllWhiteSpace(a) && AllWhiteSpace(b)
    requires t != [] ==> !IsWhiteSpace(t[0]) && !IsWhiteSpace(t[|t| - 1])
    ensures Trim(a + t + b) == t
  {
    var s := a + t + b;
    if t == [] {
      assert AllWhiteSpace(s) by {
        forall i | 0 <= i < |s|
          ensures IsWhiteSpace(s[i])
        {
          if i < |a| { assert s[i] == a[i]; } else { assert s[i] == b[i - |a|]; }
        }
      }
    } else {
      var lo := SkipSpace(s, 0);
      assert s[|a|] == t[0];
      assert lo == |a|;
      var hi := SkipSpaceBack(s, lo, |s|);
      assert s[|a| + |t| - 1] == t[|t| - 1];
      assert hi == |a| + |t|;
      assert s[lo..hi] == t;
    }
  }

  /** Trimming twice is trimming once. */
  lemma TrimIdempotent(s: string)
    ensures Trim(Trim(s)) == Trim(s)
  {
    var r := Trim(s);
    if r != [] {
      assert SkipSpace(r, 0) == 0;
      assert SkipSpaceBack(r, 0, |r|) == |r|;
      assert r[0..|r|] == r;
    }
  }

  /** `s.slice(0, n)` for a non-negative `n`: the longest prefix of `s` with
      at most `n` characters. */
  function Prefix(s: string, n: nat): (r: string)
    ensures r <= s
    ensures |r| == if |s| <= n then |s| else n
  {
    if |s| <= n then s else s[..n]
  }

  /** Truncating to a limit the string already meets changes nothing. */
  lemma PrefixIdempotent(s: string, n: nat)
    ensures Prefix(Prefix(s, n), n) == Prefix(s, n)
  {
  }

  predicate IsDigit(c: char)
  {
    '0' as int <= c as int <= '9' as int
  }

  function DigitChar(d: nat): (c: char)
    requires d < 10
    ensures IsDigit(c) && c as int - '0' as int == d
  {
    ('0' as int + d) as char
  }

  /** The decimal rendering JavaScript gives a non-negative integer clock
      value (below 10^21, where no exponent is used). */
  function Decimal(n: nat): (r: string)
    ensures r != []
    ensures forall i :: 0 <= i < |r| ==> IsDigit(r[i])
    ensures r[0] != '0' || n == 0
  {
    if n < 10 then [DigitChar(n)] else Decimal(n / 10) + [DigitChar(n % 10)]
  }

  /** Reads a string of decimal digits back as a number. */
  function ParseDecimal(s: string): nat
    requires forall i :: 0 <= i < |s| ==> IsDigit(s[i])
  {
    if s == [] then 0
    else
      assert IsDigit(s[|s| - 1]);
      ParseDecimal(s[..|s| - 1]) * 10 + (s[|s| - 1] as int - '0' as int)
  }

  /** Rendering a clock value and reading it back gives the same value. */
  lemma {:induction false} DecimalRoundTrip(n: nat)
    ensures ParseDecimal(Decimal(n)) == n
  {
    if n >= 10 {
      var d := Decimal(n / 10);
      var r := Decimal(n);
      assert r[..|r| - 1] == d;
      DecimalRoundTrip(n / 10);
    }
  }

  /** The characters before the first `-` of `s` (all of `s` if there is none). */
  function BeforeDash(s: string): (r: string)
    ensures r <= s
    ensures '-' !in r
    ensures |r| < |s| ==> s[|r|] == '-'
  {
    if s == [] || s[0] == '-' then [] else [s[0]] + BeforeDash(s[1..])
  }

  /** A dash-free head joined to anything by `-` is recovered by `BeforeDash`. */
  lemma {:induction false} BeforeDashOfJoin(head: string, tail: string)
    requires '-' !in head
    ensures BeforeDash(head + "-" + tail) == head
  {
    if head != [] {
      assert (head + "-" + tail)[1..] == head[1..] + "-" + tail;
      BeforeDashOfJoin(head[1..], tail);
    }
  }
}
