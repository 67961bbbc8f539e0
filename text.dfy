/** The string operations of Rust's `str` that the loader and the start-position
    parser rely on, stated over `seq<char>`. */
module Text {
  import opened Basics

  /** Rust's `char::is_whitespace`: the Unicode White_Space property. */
  predicate IsWhitespace(c: char)
  {
    var k := c as int;
    k == 0x20 || (0x09 <= k <= 0x0D) || k == 0x85 || k == 0xA0 || k == 0x1680
    || (0x2000 <= k <= 0x200A) || k == 0x2028 || k == 0x2029 || k == 0x202F
    || k == 0x205F || k == 0x3000
  }

  /** `s.trim().is_empty()` */
  predicate IsBlank(s: string)
  {
    forall i :: 0 <= i < |s| ==> IsWhitespace(s[i])
  }

  /** `str::trim_start`: the suffix left after dropping leading whitespace. */
  function TrimStart(s: string): (r: string)
    ensures |r| <= |s| && r == s[|s| - |r|..]
    ensures r == [] || !IsWhitespace(r[0])
    ensures forall i :: 0 <= i < |s| - |r| ==> IsWhitespace(s[i])
  {
    if s != [] && IsWhitespace(s[0]) then TrimStart(s[1..]) else s
  }

  /** `str::strip_prefix` */
  function StripPrefix(s: string, p: string): (r: Option<string>)
    ensures r.Some? <==> p <= s
    ensures r.Some? ==> s == p + r.value
  {
    if |p| <= |s| && s[..|p|] == p then Some(s[|p|..]) else None
  }

  /** `str::ends_with` for one character. */
  predicate EndsWith(s: string, c: char)
  {
    |s| > 0 && s[|s| - 1] == c
  }

  /** Index of the first occurrence of `c`. */
  function IndexOf(s: string, c: char): (r: Option<nat>)
    ensures r.None? <==> c !in s
    ensures r.Some? ==> r.value < |s| && s[r.value] == c && c !in s[..r.value]
  {
    if s == [] then None
    else if s[0] == c then Some(0)
    else match IndexOf(s[1..], c)
      case None => None
      case Some(i) => assert s[..i + 1] == [s[0]] + s[1..][..i]; Some(i + 1)
  }

  /** Index of the last occurrence of `c`. */
  function LastIndexOf(s: string, c: char): (r: Option<nat>)
    ensures r.None? <==> c !in s
    ensures r.Some? ==> r.value < |s| && s[r.value] == c && c !in s[r.value + 1..]
  {
    if s == [] then None
    else if s[|s| - 1] == c then Some(|s| - 1)
    else
      match LastIndexOf(s[..|s| - 1], c)
      case None => assert s == s[..|s| - 1] + [s[|s| - 1]]; None
      case Some(i) => assert s[i + 1..] == s[..|s| - 1][i + 1..] + [s[|s| - 1]]; Some(i)
  }

  /** `str::split_once(c)`: split around the first `c`. */
  function SplitOnce(s: string, c: char): (r: Option<(string, string)>)
    ensures r.None? <==> c !in s
    ensures r.Some? ==> s == r.value.0 + [c] + r.value.1 && c !in r.value.0
  {
    match IndexOf(s, c)
    case None => None
    case Some(i) =>
      assert s == s[..i] + [c] + s[i + 1..];
      Some((s[..i], s[i + 1..]))
  }

  /** `str::rsplit_once(c)`: split around the last `c`. */
  function RSplitOnce(s: string, c: char): (r: Option<(string, string)>)
    ensures r.None? <==> c !in s
    ensures r.Some? ==> s == r.value.0 + [c] + r.value.1 && c !in r.value.1
  {
    match LastIndexOf(s, c)
    case None => None
    case Some(i) =>
      assert s == s[..i] + [c] + s[i + 1..];
      Some((s[..i], s[i + 1..]))
  }

  /** Drops one trailing carriage return. */
  function StripCr(s: string): string
  {
    if EndsWith(s, '\r') then s[..|s| - 1] else s
  }

  /** `str::lines`: split at each line feed; a line ended by a line feed also
      loses one carriage return before it; no empty line after a final line feed. */
  function Lines(s: string): (r: seq<string>)
    ensures forall i :: 0 <= i < |r| ==> '\n' !in r[i]
    decreases |s|
  {
    if s == [] then []
    else
      match IndexOf(s, '\n')
      case None => [s]
      case Some(i) => [StripCr(s[..i])] + Lines(s[i + 1..])
  }

  /** `.filter(|l| !l.trim().is_empty())` */
  function NonBlank(ls: seq<string>): (r: seq<string>)
    ensures |r| <= |ls|
    ensures forall i :: 0 <= i < |r| ==> !IsBlank(r[i])
  {
    if ls == [] then []
    else if IsBlank(ls[0]) then NonBlank(ls[1..])
    else [ls[0]] + NonBlank(ls[1..])
  }

  /** The lines of a source text that carry something. */
  function NonBlankLines(s: string): seq<string>
  {
    NonBlank(Lines(s))
  }

  /** The inverse of `Lines` for lines without line breaks: every line ended by a line feed. */
  function JoinLines(ls: seq<string>): string
  {
    if ls == [] then [] else ls[0] + "\n" + JoinLines(ls[1..])
  }

  predicate PlainLine(l: string)
  {
    '\n' !in l && !EndsWith(l, '\r')
  }

  lemma IndexOfConcat(a: string, b: string, c: char)
    requires c !in a
    ensures IndexOf(a + [c] + b, c) == Some(|a|)
  {
    var s := a + [c] + b;
    assert s[|a|] == c;
    assert s[..|a|] == a;
    assert forall i :: |a| < i <= |s| ==> s[..i][|a|] == c;
  }

  lemma {:induction false} LastIndexOfConcat(a: string, b: string, c: char)
    requires c !in b
    ensures LastIndexOf(a + [c] + b, c) == Some(|a|)
    decreases |b|
  {
    var s := a + [c] + b;
    if b != [] {
      assert s[|s| - 1] == b[|b| - 1];
      assert s[..|s| - 1] == a + [c] + b[..|b| - 1];
      LastIndexOfConcat(a, b[..|b| - 1], c);
    }
  }

  /** `split_once` splits at the first occurrence, whatever follows it. */
  lemma SplitOnceAt(a: string, b: string, c: char)
    requires c !in a
    ensures SplitOnce(a + [c] + b, c) == Some((a, b))
  {
    var s := a + [c] + b;
    IndexOfConcat(a, b, c);
    assert s[..|a|] == a;
    assert s[|a| + 1..] == b;
  }

  /** `rsplit_once` splits at the last occurrence, whatever precedes it. */
  lemma RSplitOnceAt(a: string, b: string, c: char)
    requires c !in b
    ensures RSplitOnce(a + [c] + b, c) == Some((a, b))
  {
    var s := a + [c] + b;
    LastIndexOfConcat(a, b, c);
    assert s[..|a|] == a;
    assert s[|a| + 1..] == b;
  }

  /** A whole line and a line feed in front of a text: the line comes first. */
  lemma LinesStep(line: string, rest: string)
    requires PlainLine(line)
    ensures Lines(line + "\n" + rest) == [line] + Lines(rest)
  {
    var s := line + "\n" + rest;
    assert s == line + ['\n'] + rest;
    IndexOfConcat(line, rest, '\n');
    assert s[..|line|] == line;
    assert s[|line| + 1..] == rest;
  }

  /** Splitting joined lines gives the lines back. */
  lemma {:induction false} LinesJoinLines(ls: seq<string>)
    requires forall i :: 0 <= i < |ls| ==> PlainLine(ls[i])
    ensures Lines(JoinLines(ls)) == ls
  {
    if ls != [] {
      var t := ls[1..];
      LinesJoinLines(t);
      assert JoinLines(ls) == ls[0] + "\n" + JoinLines(t);
      LinesStep(ls[0], JoinLines(t));
      assert [ls[0]] + t == ls;
    }
  }

  /** Blank lines are dropped and the others kept in order, so a text without
      blank lines is unchanged. */
  lemma {:induction false} NonBlankKeepsFilled(ls: seq<string>)
    requires forall i :: 0 <= i < |ls| ==> !IsBlank(ls[i])
    ensures NonBlank(ls) == ls
  {
    if ls != [] {
      NonBlankKeepsFilled(ls[1..]);
    }
  }

  /** Lines that all carry something are kept ahead of whatever follows them. */
  lemma {:induction false} NonBlankFilledPrefix(a: seq<string>, b: seq<string>)
    requires forall i :: 0 <= i < |a| ==> !IsBlank(a[i])
    ensures NonBlank(a + b) == a + NonBlank(b)
  {
    if a == [] {
      assert a + b == b;
    } else {
      assert (a + b)[0] == a[0];
      assert (a + b)[1..] == a[1..] + b;
      NonBlankFilledPrefix(a[1..], b);
      assert [a[0]] + (a[1..] + NonBlank(b)) == a + NonBlank(b);
    }
  }

  /** Inserting a blank line anywhere does not change the lines that carry something. */
  lemma {:induction false} NonBlankIgnoresBlank(a: seq<string>, blank: string, b: seq<string>)
    requires IsBlank(blank)
    ensures NonBlank(a + [blank] + b) == NonBlank(a + b)
  {
    if a == [] {
      assert a + [blank] + b == [blank] + b;
      assert ([blank] + b)[0] == blank;
      assert ([blank] + b)[1..] == b;
      assert a + b == b;
    } else {
      assert (a + [blank] + b)[1..] == a[1..] + [blank] + b;
      assert (a + b)[1..] == a[1..] + b;
      NonBlankIgnoresBlank(a[1..], blank, b);
    }
  }

  // ---------------------------------------------------------------------------
  // Decimal numbers, as Rust's `str::parse` for unsigned integers reads them

  predicate IsDigit(c: char)
  {
    '0' <= c <= '9'
  }

  predicate AllDigits(s: string)
  {
    forall i :: 0 <= i < |s| ==> IsDigit(s[i])
  }

  function DigitValue(c: char): nat
    requires IsDigit(c)
  {
    (c as int) - ('0' as int)
  }

  function DigitChar(d: nat): (c: char)
    requires d < 10
    ensures IsDigit(c) && DigitValue(c) == d
  {
    (('0' as int) + d) as char
  }

  /** The value of a string of decimal digits, most significant first. */
  function DigitsValue(s: string): nat
    requires AllDigits(s)
  {
    if s == [] then 0 else 10 * DigitsValue(s[..|s| - 1]) + DigitValue(s[|s| - 1])
  }

  /** The digits after an optional leading `+`, as `u16::from_str` and
      `u64::from_str` accept them. */
  function Unsigned(s: string): string
  {
    if |s| > 0 && s[0] == '+' then s[1..] else s
  }

  /** `s.parse::<uN>()` where `max` is the largest `uN`: a nonempty run of
      decimal digits after an optional `+`, no larger than `max`. */
  function ParseUnsigned(s: string, max: nat): (r: Option<nat>)
    ensures r.Some? ==> r.value <= max
    ensures s == [] ==> r.None?
  {
    var d := Unsigned(s);
    if |d| > 0 && AllDigits(d) && DigitsValue(d) <= max then Some(DigitsValue(d)) else None
  }

  /** Decimal text of a natural number, without leading zeros (Rust's `{}`). */
  function NatToDec(n: nat): (s: string)
    ensures |s| > 0 && AllDigits(s)
  {
    if n < 10 then [DigitChar(n)] else NatToDec(n / 10) + [DigitChar(n % 10)]
  }

  lemma {:induction false} NatToDecValue(n: nat)
    ensures DigitsValue(NatToDec(n)) == n
  {
    if n >= 10 {
      var s := NatToDec(n);
      assert s[..|s| - 1] == NatToDec(n / 10);
      NatToDecValue(n / 10);
    }
  }

  /** Printing a number and parsing it back gives the number, as long as it fits. */
  lemma NatToDecRoundTrip(n: nat, max: nat)
    requires n <= max
    ensures ParseUnsigned(NatToDec(n), max) == Some(n)
  {
    NatToDecValue(n);
    assert NatToDec(n)[0] != '+';
  }

  /** No digit string contains a given non-digit character. */
  lemma DigitsExclude(s: string, c: char)
    requires AllDigits(s) && !IsDigit(c)
    ensures c !in s
  {
  }

  // ---------------------------------------------------------------------------
  // UTF-8 widths, for the one place where the source slices a string by bytes

  /** Number of UTF-8 bytes encoding `c`. */
  function Utf8Len(c: char): nat
  {
    var k := c as int;
    if k < 0x80 then 1 else if k < 0x800 then 2 else if k < 0x1_0000 then 3 else 4
  }

  /** Number of characters making up exactly the first `k` bytes of `s`, or
      None when byte `k` is not the start of a character or past the end
      (where Rust's byte-indexed slicing panics). */
  function TakeBytes(s: string, k: nat): (r: Option<nat>)
    ensures r.Some? ==> r.value <= |s|
    ensures r.Some? && r.value == 0 ==> k == 0
  {
    if k == 0 then Some(0)
    else if s == [] || Utf8Len(s[0]) > k then None
    else match TakeBytes(s[1..], k - Utf8Len(s[0]))
      case None => None
      case Some(n) => Some(n + 1)
  }

  /** Number of UTF-8 bytes encoding `s`. */
  function Utf8Bytes(s: string): nat
  {
    if s == [] then 0 else Utf8Len(s[0]) + Utf8Bytes(s[1..])
  }

  /** Only the empty string takes no bytes. */
  lemma Utf8BytesPositive(s: string)
    requires s != []
    ensures Utf8Bytes(s) >= Utf8Len(s[0]) >= 1
  {
  }

  /** The first `n + 1` characters: the first one, then `n` more. */
  lemma Utf8BytesPrefix(s: string, n: nat)
    requires n < |s|
    ensures Utf8Bytes(s[..n + 1]) == Utf8Len(s[0]) + Utf8Bytes(s[1..][..n])
  {
    assert s[..n + 1][1..] == s[1..][..n];
  }

  /** `TakeBytes` finds exactly the character count whose prefix is `k` bytes long. */
  lemma {:induction false} TakeBytesIsPrefix(s: string, k: nat, n: nat)
    requires TakeBytes(s, k) == Some(n)
    ensures n <= |s| && Utf8Bytes(s[..n]) == k
    decreases |s|
  {
    if k > 0 {
      var m :| TakeBytes(s[1..], k - Utf8Len(s[0])) == Some(m) && n == m + 1;
      TakeBytesIsPrefix(s[1..], k - Utf8Len(s[0]), m);
      Utf8BytesPrefix(s, m);
    }
  }

  /** Any character count whose prefix is `k` bytes long is the one `TakeBytes` finds. */
  lemma {:induction false} PrefixIsTakeBytes(s: string, k: nat, n: nat)
    requires n <= |s| && Utf8Bytes(s[..n]) == k
    ensures TakeBytes(s, k) == Some(n)
    decreases |s|
  {
    if n == 0 {
      assert s[..n] == [];
    } else {
      Utf8BytesPositive(s[..n]);
      Utf8BytesPrefix(s, n - 1);
      PrefixIsTakeBytes(s[1..], k - Utf8Len(s[0]), n - 1);
    }
  }

  /** Byte offset `k` is a character boundary of `s`, `n` characters in,
      exactly when the first `n` characters take `k` bytes. */
  lemma TakeBytesBoundary(s: string, k: nat, n: nat)
    ensures TakeBytes(s, k) == Some(n) <==> n <= |s| && Utf8Bytes(s[..n]) == k
  {
    if TakeBytes(s, k) == Some(n) {
      TakeBytesIsPrefix(s, k, n);
    }
    if n <= |s| && Utf8Bytes(s[..n]) == k {
      PrefixIsTakeBytes(s, k, n);
    }
  }

  /** The slicing fails exactly when no prefix of `s` is `k` bytes long:
      `k` is inside a character or past the end. */
  lemma TakeBytesNone(s: string, k: nat)
    ensures TakeBytes(s, k).None? <==> forall n :: 0 <= n <= |s| ==> Utf8Bytes(s[..n]) != k
  {
    if TakeBytes(s, k).Some? {
      TakeBytesIsPrefix(s, k, TakeBytes(s, k).value);
    }
    forall n | 0 <= n <= |s| && Utf8Bytes(s[..n]) == k
      ensures TakeBytes(s, k).Some?
    {
      PrefixIsTakeBytes(s, k, n);
    }
  }

  /** Byte offsets that fall on single-byte (ASCII) characters are character offsets. */
  lemma {:induction false} TakeBytesAscii(s: string, k: nat)
    requires k <= |s|
    requires forall i :: 0 <= i < k ==> Utf8Len(s[i]) == 1
    ensures TakeBytes(s, k) == Some(k)
  {
    if k > 0 {
      TakeBytesAscii(s[1..], k - 1);
    }
  }
}
