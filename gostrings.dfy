/** The part of Go's `strings` and `strconv` packages the client relies on,
    over strings as sequences of characters. Every delimiter the client
    searches for is ASCII, so character positions stand in for Go's byte
    positions without changing any slice's contents. */
module GoStrings {
  import opened FtpTypes

  /** `sub` occurs in `s` starting at position `i`. */
  predicate OccursAt(s: string, sub: string, i: int) {
    0 <= i && i + |sub| <= |s| && s[i..i + |sub|] == sub
  }

  function IndexFrom(s: string, sub: string, i: nat): (r: int)
    ensures r == -1 || (i <= r && OccursAt(s, sub, r))
    ensures forall j :: i <= j && (r == -1 || j < r) ==> !OccursAt(s, sub, j)
    decreases |s| - i
  {
    if i + |sub| > |s| then -1
    else if s[i..i + |sub|] == sub then i
    else IndexFrom(s, sub, i + 1)
  }

  /** strings.Index: the first position of `sub` in `s`, or -1. */
  function Index(s: string, sub: string): (r: int)
    ensures r == -1 || (0 <= r && OccursAt(s, sub, r))
    ensures forall j :: 0 <= j && (r == -1 || j < r) ==> !OccursAt(s, sub, j)
  {
    IndexFrom(s, sub, 0)
  }

  function LastIndexAtMost(s: string, sub: string, i: int): (r: int)
    ensures r == -1 || (0 <= r <= i && OccursAt(s, sub, r))
    ensures forall j :: r < j <= i ==> !OccursAt(s, sub, j)
    decreases i + 1
  {
    if i < 0 then -1
    else if OccursAt(s, sub, i) then i
    else LastIndexAtMost(s, sub, i - 1)
  }

  /** strings.LastIndex: the last position of `sub` in `s`, or -1. */
  function LastIndex(s: string, sub: string): (r: int)
    ensures r == -1 || (0 <= r && OccursAt(s, sub, r))
    ensures forall j :: r < j ==> !OccursAt(s, sub, j)
  {
    LastIndexAtMost(s, sub, |s| - |sub|)
  }

  predicate HasPrefix(s: string, prefix: string) {
    |prefix| <= |s| && s[..|prefix|] == prefix
  }

  predicate HasSuffix(s: string, suffix: string) {
    |suffix| <= |s| && s[|s| - |suffix|..] == suffix
  }

  /** strings.Split(s, sep) for a one-character separator: the pieces
      between the separators, the empty string giving one empty piece. */
  function Split(s: string, sep: char): (parts: seq<string>)
    ensures |parts| >= 1
    decreases |s|
  {
    if |s| == 0 then [""]
    else
      var rest := Split(s[1..], sep);
      if s[0] == sep then [""] + rest
      else [[s[0]] + rest[0]] + rest[1..]
  }

  /** strings.Join. */
  function Join(parts: seq<string>, sep: string): string
    decreases |parts|
  {
    if |parts| == 0 then ""
    else if |parts| == 1 then parts[0]
    else parts[0] + sep + Join(parts[1..], sep)
  }

  /** strings.SplitN(s, sep, 2) for a one-character separator: the text
      before the first separator and the text after it, or `s` alone. */
  function SplitFirst(s: string, sep: char): (parts: seq<string>)
    ensures 1 <= |parts| <= 2
    ensures |parts| == 1 <==> sep !in s
    ensures |parts| == 1 ==> parts[0] == s
    ensures |parts| == 2 ==> s == parts[0] + [sep] + parts[1] && sep !in parts[0]
  {
    var i := Index(s, [sep]);
    if i == -1 then
      assert forall k :: 0 <= k < |s| ==> s[k] != sep by {
        forall k | 0 <= k < |s| ensures s[k] != sep {
          assert !OccursAt(s, [sep], k);
          assert s[k..k + 1] == [s[k]];
        }
      }
      [s]
    else
      assert s[i..i + 1] == [sep];
      assert forall k :: 0 <= k < i ==> s[k] != sep by {
        forall k | 0 <= k < i ensures s[k] != sep {
          assert !OccursAt(s, [sep], k);
          assert s[k..k + 1] == [s[k]];
        }
      }
      assert s == s[..i] + [sep] + s[i + 1..];
      [s[..i], s[i + 1..]]
  }

  /** unicode.IsSpace: the characters with the Unicode White_Space property. */
  predicate IsSpace(c: char) {
    var n := c as int;
    (9 <= n <= 13) || n == 32 || n == 0x85 || n == 0xA0 || n == 0x1680
    || (0x2000 <= n <= 0x200A) || n == 0x2028 || n == 0x2029 || n == 0x202F
    || n == 0x205F || n == 0x3000
  }

  /** Every character of `s` is white space. */
  predicate AllSpace(s: string) {
    forall k :: 0 <= k < |s| ==> IsSpace(s[k])
  }

  function TrimLeft(s: string): (r: string)
    ensures |r| <= |s| && r == s[|s| - |r|..]
    ensures |r| > 0 ==> !IsSpace(r[0])
    ensures AllSpace(s[..|s| - |r|])
    decreases |s|
  {
    if |s| > 0 && IsSpace(s[0]) then
      var r := TrimLeft(s[1..]);
      assert s[..|s| - |r|] == [s[0]] + s[1..][..|s| - 1 - |r|];
      r
    else s
  }

  function TrimRight(s: string): (r: string)
    ensures |r| <= |s| && r == s[..|r|]
    ensures |r| > 0 ==> !IsSpace(r[|r| - 1])
    ensures AllSpace(s[|r|..])
    decreases |s|
  {
    if |s| > 0 && IsSpace(s[|s| - 1]) then
      var r := TrimRight(s[..|s| - 1]);
      assert s[|r|..] == s[..|s| - 1][|r|..] + [s[|s| - 1]];
      r
    else s
  }

  /** `r` is the part of `s` from `lo` on, with only white space before it
      and after it. */
  predicate TrimmedFrom(s: string, lo: int, r: string) {
    && 0 <= lo && lo + |r| <= |s| && r == s[lo..lo + |r|]
    && AllSpace(s[..lo]) && AllSpace(s[lo + |r|..])
  }

  /** strings.TrimSpace: `s` without its leading and trailing white space.
      Lemma TrimSpaceTrims states which part of `s` that is. */
  function TrimSpace(s: string): (r: string)
    ensures |r| > 0 ==> !IsSpace(r[0]) && !IsSpace(r[|r| - 1])
  {
    TrimRight(TrimLeft(s))
  }

  /** TrimSpace removes white space at both ends and nothing else: its
      result is the part of `s` from where `TrimLeft` stops, with only white
      space before and after it. As the result neither starts nor ends with
      white space, it is the only such part. */
  lemma TrimSpaceTrims(s: string)
    ensures TrimmedFrom(s, |s| - |TrimLeft(s)|, TrimSpace(s))
  {
    TrimCompose(s, TrimLeft(s), TrimRight(TrimLeft(s)));
  }

  /** Trimming white space from the front and then from the back trims it
      from both ends. */
  lemma TrimCompose(s: string, t: string, r: string)
    requires |t| <= |s| && t == s[|s| - |t|..] && AllSpace(s[..|s| - |t|])
    requires |r| <= |t| && r == t[..|r|] && AllSpace(t[|r|..])
    ensures TrimmedFrom(s, |s| - |t|, r)
  {
    var lo := |s| - |t|;
    assert s[lo..lo + |r|] == t[..|r|];
    assert s[lo + |r|..] == t[|r|..];
  }

  predicate IsDigit(c: char) {
    '0' <= c <= '9'
  }

  predicate AllDigits(s: string) {
    forall k :: 0 <= k < |s| ==> IsDigit(s[k])
  }

  /** The number a string of decimal digits denotes. */
  function DigitsValue(s: string): nat
    requires AllDigits(s)
    decreases |s|
  {
    if |s| == 0 then 0
    else 10 * DigitsValue(s[..|s| - 1]) + (s[|s| - 1] as int - '0' as int)
  }

  const MinInt64: int := -0x8000_0000_0000_0000
  const MaxInt64: int := 0x7FFF_FFFF_FFFF_FFFF

  predicate InInt64(x: int) {
    MinInt64 <= x <= MaxInt64
  }

  /** Two's-complement wrap-around of a mathematical integer into Go's
      64-bit `int`. */
  function WrapInt64(x: int): (r: int)
    ensures InInt64(r)
    ensures (r - x) % 0x1_0000_0000_0000_0000 == 0
  {
    (x - MinInt64) % 0x1_0000_0000_0000_0000 + MinInt64
  }

  /** The text strconv.Atoi reads: an optional sign, then one or more
      decimal digits. */
  predicate IsDecimal(s: string) {
    && |s| > 0
    && (AllDigits(s) || ((s[0] == '+' || s[0] == '-') && |s| > 1 && AllDigits(s[1..])))
  }

  /** The value of such a text. */
  function DecimalValue(s: string): int
    requires IsDecimal(s)
  {
    if AllDigits(s) then DigitsValue(s)
    else if s[0] == '-' then -(DigitsValue(s[1..]) as int)
    else DigitsValue(s[1..])
  }

  /** strconv.Atoi on a 64-bit platform: an optional sign followed by one
      or more decimal digits whose value fits in an int64. Go tells a syntax
      error from a range error; both are one NumError here. */
  function Atoi(s: string): (r: Result<int>)
    ensures r.Ok? <==> IsDecimal(s) && InInt64(DecimalValue(s))
    ensures r.Ok? ==> r.value == DecimalValue(s) && InInt64(r.value)
    ensures r.Err? ==> r.error == NumError(s)
  {
    var signed := |s| > 0 && (s[0] == '-' || s[0] == '+');
    var digits := if signed then s[1..] else s;
    if |digits| == 0 || !AllDigits(digits) then Err(NumError(s))
    else
      var v: int := if |s| > 0 && s[0] == '-' then -(DigitsValue(digits) as int) else DigitsValue(digits);
      if InInt64(v) then Ok(v) else Err(NumError(s))
  }

  function DigitChar(d: nat): (c: char)
    requires d < 10
    ensures IsDigit(c) && c as int - '0' as int == d
  {
    ('0' as int + d) as char
  }

  /** The decimal text of a natural number, as fmt's %d or strconv.Itoa
      write it: no sign, no leading zeros. */
  function Itoa(n: nat): (r: string)
    ensures |r| >= 1 && AllDigits(r)
    decreases n
  {
    if n < 10 then [DigitChar(n)] else Itoa(n / 10) + [DigitChar(n % 10)]
  }

  /** What lies between the first `open` and the last `close` of a string:
      one of them is missing, the last `close` starts before the first
      `open` ends (a slice with low > high, which panics in Go), or the
      text between them. */
  datatype Enclosure = NoDelimiter | Inverted | Inside(text: string)

  function Enclosed(s: string, open: string, close: string): (r: Enclosure)
    ensures r.NoDelimiter? <==> Index(s, open) == -1 || LastIndex(s, close) == -1
    ensures r.Inside? ==> |r.text| + |open| + |close| <= |s|
  {
    var start := Index(s, open);
    var end := LastIndex(s, close);
    if start == -1 || end == -1 then NoDelimiter
    else if start + |open| > end then Inverted
    else Inside(s[start + |open|..end])
  }

  // ---------------------------------------------------------------------
  // Properties of the string functions

  /** The first occurrence of `sub` is right after a prefix that does not
      contain its first character. */
  lemma IndexAfterFreePrefix(pre: string, sub: string, rest: string)
    requires |sub| > 0 && sub[0] !in pre
    ensures Index(pre + sub + rest, sub) == |pre|
  {
    var s := pre + sub + rest;
    assert s[|pre|..|pre| + |sub|] == sub;
    assert OccursAt(s, sub, |pre|);
    forall j | 0 <= j < |pre| ensures !OccursAt(s, sub, j) {
      if j + |sub| <= |s| {
        assert s[j..j + |sub|][0] == s[j] == pre[j];
      }
    }
  }

  /** The last occurrence of `sub` is right before a suffix that does not
      contain its last character. */
  lemma LastIndexBeforeFreeSuffix(rest: string, sub: string, post: string)
    requires |sub| > 0 && sub[|sub| - 1] !in post
    ensures LastIndex(rest + sub + post, sub) == |rest|
  {
    var s := rest + sub + post;
    assert s[|rest|..|rest| + |sub|] == sub;
    assert OccursAt(s, sub, |rest|);
    forall j | j > |rest| ensures !OccursAt(s, sub, j) {
      if j + |sub| <= |s| {
        var k := j + |sub| - 1;
        assert s[j..j + |sub|][|sub| - 1] == s[k];
        assert s[k] == post[k - |rest| - |sub|];
      }
    }
  }

  /** A character that does not occur has no first or last position. */
  lemma CharAbsent(s: string, c: char)
    requires c !in s
    ensures Index(s, [c]) == -1 && LastIndex(s, [c]) == -1
  {
    forall j | true ensures !OccursAt(s, [c], j) {
      if 0 <= j < |s| {
        assert s[j..j + 1][0] == s[j];
      }
    }
  }

  /** Split and Join with the same separator are inverse: joining the
      pieces gives back the string. */
  lemma {:induction false} JoinSplit(s: string, sep: char)
    ensures Join(Split(s, sep), [sep]) == s
    decreases |s|
  {
    if |s| > 0 {
      var rest := Split(s[1..], sep);
      JoinSplit(s[1..], sep);
      if s[0] == sep {
        assert Split(s, sep) == [""] + rest;
        assert ([""] + rest)[1..] == rest;
        assert s == [sep] + s[1..];
      } else {
        var parts := Split(s, sep);
        assert parts == [[s[0]] + rest[0]] + rest[1..];
        if |rest| == 1 {
          assert s == [s[0]] + s[1..];
        } else {
          assert parts[1..] == rest[1..];
          assert Join(rest, [sep]) == rest[0] + [sep] + Join(rest[1..], [sep]);
          assert s == [s[0]] + s[1..];
        }
      }
    }
  }

  /** A string without the separator is one piece. */
  lemma {:induction false} SplitWithoutSeparator(s: string, sep: char)
    requires sep !in s
    ensures Split(s, sep) == [s]
    decreases |s|
  {
    if |s| > 0 {
      SplitWithoutSeparator(s[1..], sep);
      assert s == [s[0]] + s[1..];
    }
  }

  /** Splitting at a separator splits the pieces of each side apart. */
  lemma {:induction false} SplitAtSeparator(a: string, b: string, sep: char)
    ensures Split(a + [sep] + b, sep) == Split(a, sep) + Split(b, sep)
    decreases |a|
  {
    if |a| == 0 {
      assert a + [sep] + b == [sep] + b;
      SplitCons(sep, b, sep);
    } else {
      var t := a[1..] + [sep] + b;
      assert a + [sep] + b == [a[0]] + t;
      assert a == [a[0]] + a[1..];
      SplitCons(a[0], t, sep);
      SplitCons(a[0], a[1..], sep);
      SplitAtSeparator(a[1..], b, sep);
      PrependPiece(a[0], sep, Split(a[1..], sep), Split(b, sep));
    }
  }

  /** One step of Split, on a string written as a first character and the rest. */
  lemma SplitCons(c: char, t: string, sep: char)
    ensures Split([c] + t, sep) ==
            if c == sep then [""] + Split(t, sep)
            else [[c] + Split(t, sep)[0]] + Split(t, sep)[1..]
  {
    assert ([c] + t)[1..] == t;
  }

  /** Extending the first piece commutes with appending further pieces. */
  lemma PrependPiece(c: char, sep: char, ra: seq<string>, rb: seq<string>)
    requires |ra| >= 1
    ensures (if c == sep then [""] + (ra + rb) else [[c] + (ra + rb)[0]] + (ra + rb)[1..]) ==
            (if c == sep then [""] + ra else [[c] + ra[0]] + ra[1..]) + rb
  {
    if c != sep {
      assert (ra + rb)[1..] == ra[1..] + rb;
    }
  }

  /** Pieces joined with a separator they do not contain split back into
      the same pieces. */
  lemma {:induction false} SplitJoin(parts: seq<string>, sep: char)
    requires |parts| >= 1
    requires forall i :: 0 <= i < |parts| ==> sep !in parts[i]
    ensures Split(Join(parts, [sep]), sep) == parts
    decreases |parts|
  {
    SplitWithoutSeparator(parts[0], sep);
    if |parts| > 1 {
      SplitJoin(parts[1..], sep);
      SplitAtSeparator(parts[0], Join(parts[1..], [sep]), sep);
      assert [parts[0]] + parts[1..] == parts;
    }
  }

  lemma {:induction false} DigitsValueOfItoa(n: nat)
    ensures DigitsValue(Itoa(n)) == n
    decreases n
  {
    if n >= 10 {
      DigitsValueOfItoa(n / 10);
      var t := Itoa(n / 10) + [DigitChar(n % 10)];
      assert t[..|t| - 1] == Itoa(n / 10);
    }
  }

  /** Atoi reads back what Itoa writes, for every value an int64 holds. */
  lemma AtoiOfItoa(n: nat)
    requires n <= MaxInt64
    ensures Atoi(Itoa(n)) == Ok(n)
  {
    DigitsValueOfItoa(n);
    assert IsDigit(Itoa(n)[0]);
  }

  /** A string of digits contains no character that is not a digit. */
  lemma DigitsExclude(s: string, c: char)
    requires AllDigits(s) && !IsDigit(c)
    ensures c !in s
  {
  }

  /** Wrapping changes nothing for a value an int64 already holds. */
  lemma WrapInt64Identity(x: int)
    requires InInt64(x)
    ensures WrapInt64(x) == x
  {
    var m := 0x1_0000_0000_0000_0000;
    assert 0 <= x - MinInt64 < m;
    assert (x - MinInt64) % m == x - MinInt64;
  }

  /** The text from the first `open` to the last `close`, as the client
      slices it for PASV, EPSV and PWD replies. */
  lemma Delimited(pre: string, open: string, inner: string, close: string, post: string)
    requires |open| > 0 && open[0] !in pre
    requires |close| > 0 && close[|close| - 1] !in post
    ensures Enclosed(pre + open + inner + close + post, open, close) == Inside(inner)
  {
    var line := pre + open + inner + close + post;
    assert line == pre + open + (inner + close + post);
    IndexAfterFreePrefix(pre, open, inner + close + post);
    assert line == (pre + open + inner) + close + post;
    LastIndexBeforeFreeSuffix(pre + open + inner, close, post);
    assert line[|pre| + |open|..|pre| + |open| + |inner|] == inner;
  }
}
