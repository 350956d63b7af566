/** The string operations of Rust's standard library that the interpreter relies on,
    on strings of Unicode scalar values: UTF-8 length, decimal formatting and `i64`
    parsing, whitespace trimming, prefix tests, `replace`, `match_indices`, `lines`
    and `split`. */
module Text {
  import opened Values

  const I64Min: int := -0x8000_0000_0000_0000
  const I64Max: int := 0x7FFF_FFFF_FFFF_FFFF

  predicate InI64(n: int) { I64Min <= n <= I64Max }

  // ---------------------------------------------------------------- UTF-8 length

  /** Bytes taken by one Unicode scalar value in UTF-8. */
  function Utf8Width(c: char): (w: nat)
    ensures 1 <= w <= 4
    ensures w == 1 <==> c as int < 0x80
  {
    if c as int < 0x80 then 1
    else if c as int < 0x800 then 2
    else if c as int < 0x1_0000 then 3
    else 4
  }

  /** `str::len`: the byte length of the UTF-8 encoding. */
  function Utf8Len(s: string): nat
  {
    if |s| == 0 then 0 else Utf8Width(s[0]) + Utf8Len(s[1..])
  }

  predicate IsAscii(s: string) { forall i | 0 <= i < |s| :: s[i] as int < 0x80 }

  /** The byte length is between the character count and four times it, and equals
      the character count exactly when every character is ASCII. */
  lemma {:induction false} Utf8LenBounds(s: string)
    ensures |s| <= Utf8Len(s) <= 4 * |s|
    ensures Utf8Len(s) == |s| <==> IsAscii(s)
  {
    if |s| > 0 {
      Utf8LenBounds(s[1..]);
      if IsAscii(s) {
        assert IsAscii(s[1..]) by {
          forall i | 0 <= i < |s| - 1 ensures s[1..][i] as int < 0x80 {
            assert s[1..][i] == s[i + 1];
          }
        }
      }
      if Utf8Len(s) == |s| {
        forall i | 0 <= i < |s| ensures s[i] as int < 0x80 {
          if i > 0 { assert s[i] == s[1..][i - 1]; }
        }
      }
    }
  }

  lemma {:induction false} Utf8LenConcat(s: string, t: string)
    ensures Utf8Len(s + t) == Utf8Len(s) + Utf8Len(t)
  {
    if |s| > 0 {
      assert (s + t)[1..] == s[1..] + t;
      Utf8LenConcat(s[1..], t);
    } else {
      assert s + t == t;
    }
  }

  // ---------------------------------------------------------------- decimal text

  predicate IsDigit(c: char) { '0' <= c <= '9' }

  predicate AllDigits(s: string) { forall i | 0 <= i < |s| :: IsDigit(s[i]) }

  function DigitChar(d: nat): (c: char)
    requires d < 10
    ensures IsDigit(c)
  {
    ('0' as int + d) as char
  }

  function DigitValue(c: char): nat
    requires IsDigit(c)
  {
    c as int - '0' as int
  }

  /** The decimal digits of a natural number, most significant first, no leading zero. */
  function Digits(n: nat): (s: string)
    ensures |s| > 0 && AllDigits(s)
    ensures s[0] != '0' || n == 0
  {
    if n < 10 then [DigitChar(n)] else Digits(n / 10) + [DigitChar(n % 10)]
  }

  /** The number a string of decimal digits denotes. */
  function DigitsValue(s: string): nat
    requires AllDigits(s)
  {
    if |s| == 0 then 0 else DigitsValue(s[..|s| - 1]) * 10 + DigitValue(s[|s| - 1])
  }

  lemma {:induction false} DigitsRoundTrip(n: nat)
    ensures DigitsValue(Digits(n)) == n
  {
    if n >= 10 {
      var s := Digits(n / 10);
      assert Digits(n)[..|Digits(n)| - 1] == s;
      DigitsRoundTrip(n / 10);
    }
  }

  /** `i64::to_string`: optional minus sign, then the digits. */
  function Decimal(n: int): string
  {
    if n < 0 then "-" + Digits(-n) else Digits(n)
  }

  /** `str::parse::<i64>`: an optional `+` or `-`, then one or more ASCII digits, with
      a value inside the 64-bit range; anything else is a parse error. */
  function ParseI64(s: string): (r: Option<int>)
    ensures r.Some? ==> InI64(r.value)
  {
    var negative := |s| > 0 && s[0] == '-';
    var body := if |s| > 0 && (s[0] == '-' || s[0] == '+') then s[1..] else s;
    if |body| == 0 || !AllDigits(body) then None
    else
      var v: int := if negative then -(DigitsValue(body) as int) else DigitsValue(body);
      if InI64(v) then Some(v) else None
  }

  /** Parsing the decimal text of a 64-bit integer gives the integer back. */
  lemma DecimalRoundTrip(n: int)
    requires InI64(n)
    ensures ParseI64(Decimal(n)) == Some(n)
  {
    var d := Decimal(n);
    if n < 0 {
      assert d[0] == '-' && d[1..] == Digits(-n);
      DigitsRoundTrip(-n);
      assert DigitsValue(d[1..]) == -n;
    } else {
      assert d == Digits(n) && IsDigit(d[0]);
      DigitsRoundTrip(n);
    }
  }

  // ---------------------------------------------------------------- whitespace

  /** `char::is_whitespace`: the Unicode White_Space property. */
  predicate IsWhitespace(c: char)
  {
    var k := c as int;
    k == 0x20 || 0x09 <= k <= 0x0D || k == 0x85 || k == 0xA0 || k == 0x1680
    || 0x2000 <= k <= 0x200A || k == 0x2028 || k == 0x2029 || k == 0x202F
    || k == 0x205F || k == 0x3000
  }

  /** `str::trim_start`. */
  function TrimStart(s: string): (r: string)
    ensures |r| <= |s| && r == s[|s| - |r|..]
    ensures |r| == 0 || !IsWhitespace(r[0])
    ensures forall i | 0 <= i < |s| - |r| :: IsWhitespace(s[i])
  {
    if |s| > 0 && IsWhitespace(s[0]) then TrimStart(s[1..]) else s
  }

  /** `str::trim_end`. */
  function TrimEnd(s: string): (r: string)
    ensures |r| <= |s| && r == s[..|r|]
    ensures |r| == 0 || !IsWhitespace(r[|r| - 1])
    ensures forall i | |r| <= i < |s| :: IsWhitespace(s[i])
  {
    if |s| > 0 && IsWhitespace(s[|s| - 1]) then TrimEnd(s[..|s| - 1]) else s
  }

  /** `str::trim`. */
  function Trim(s: string): string
  {
    TrimEnd(TrimStart(s))
  }

  predicate NoEdgeWhitespace(s: string)
  {
    |s| == 0 || (!IsWhitespace(s[0]) && !IsWhitespace(s[|s| - 1]))
  }

  /** Trimming removes exactly the whitespace at both ends: it keeps a string with
      no whitespace at its ends, and removes whitespace padding around one. */
  lemma TrimPadded(pre: string, s: string, post: string)
    requires NoEdgeWhitespace(s)
    requires forall i | 0 <= i < |pre| :: IsWhitespace(pre[i])
    requires forall i | 0 <= i < |post| :: IsWhitespace(post[i])
    ensures Trim(pre + s + post) == s
  {
    var t := pre + s + post;
    var a := TrimStart(t);
    if |s| > 0 {
      assert t[|pre|] == s[0];
      assert |a| == |s| + |post|;
      assert a == s + post;
      var b := TrimEnd(a);
      assert a[|s| - 1] == s[|s| - 1];
      assert |b| == |s|;
    } else {
      assert t == pre + post;
      assert |a| == 0;
    }
  }

  // ---------------------------------------------------------------- prefixes and replacement

  predicate StartsWith(s: string, p: string) { |p| <= |s| && s[..|p|] == p }

  predicate EndsWith(s: string, p: string) { |p| <= |s| && s[|s| - |p|..] == p }

  /** `pat` occurs in `s` at index `k`. */
  predicate OccursAt(s: string, pat: string, k: int)
  {
    0 <= k && k + |pat| <= |s| && s[k..k + |pat|] == pat
  }

  predicate Contains(s: string, pat: string)
  {
    exists k | 0 <= k <= |s| :: OccursAt(s, pat, k)
  }

  /** `str::replace`: every non-overlapping occurrence, scanned left to right. */
  function ReplaceAll(s: string, pat: string, rep: string): string
    requires |pat| > 0
  {
    if |s| < |pat| then s
    else if s[..|pat|] == pat then rep + ReplaceAll(s[|pat|..], pat, rep)
    else [s[0]] + ReplaceAll(s[1..], pat, rep)
  }

  /** Text without the pattern is left as it is. */
  lemma {:induction false} ReplaceAbsent(s: string, pat: string, rep: string)
    requires |pat| > 0 && !Contains(s, pat)
    ensures ReplaceAll(s, pat, rep) == s
  {
    if |s| >= |pat| {
      assert !OccursAt(s, pat, 0);
      assert !Contains(s[1..], pat) by {
        forall k | OccursAt(s[1..], pat, k) ensures false {
          assert s[1..][k..k + |pat|] == s[k + 1..k + 1 + |pat|];
          assert OccursAt(s, pat, k + 1);
        }
      }
      ReplaceAbsent(s[1..], pat, rep);
    }
  }

  /** `str::match_indices(pat)` from index `k` on: the non-overlapping occurrences,
      left to right. */
  function OccurrencesFrom(s: string, pat: string, k: nat): (r: seq<nat>)
    requires |pat| > 0
    ensures forall i | 0 <= i < |r| :: OccursAt(s, pat, r[i]) && k <= r[i]
    ensures forall i, j | 0 <= i < j < |r| :: r[i] + |pat| <= r[j]
    decreases |s| - k
  {
    if k + |pat| > |s| then []
    else if s[k..k + |pat|] == pat then [k] + OccurrencesFrom(s, pat, k + |pat|)
    else OccurrencesFrom(s, pat, k + 1)
  }

  /** Some listed position `r[i]` has `q` in `[r[i], r[i] + width)`. */
  predicate Covers(r: seq<nat>, q: int, width: nat)
  {
    exists i | 0 <= i < |r| :: r[i] <= q < r[i] + width
  }

  /** No occurrence is missed: every occurrence at or after `k` lies inside a listed
      one (and is listed itself when the pattern cannot overlap itself). */
  lemma {:induction false} OccurrencesComplete(s: string, pat: string, k: nat, q: int)
    requires |pat| > 0 && k <= q && OccursAt(s, pat, q)
    ensures Covers(OccurrencesFrom(s, pat, k), q, |pat|)
    decreases |s| - k
  {
    assert k + |pat| <= |s|;
    var r := OccurrencesFrom(s, pat, k);
    if s[k..k + |pat|] == pat {
      assert r == [k] + OccurrencesFrom(s, pat, k + |pat|);
      if q < k + |pat| {
        assert r[0] <= q < r[0] + |pat|;
      } else {
        OccurrencesComplete(s, pat, k + |pat|, q);
        CoversAfter([k], OccurrencesFrom(s, pat, k + |pat|), q, |pat|);
      }
    } else {
      assert r == OccurrencesFrom(s, pat, k + 1);
      assert q != k;
      OccurrencesComplete(s, pat, k + 1, q);
    }
  }

  /** A position covered by a list stays covered when other positions come first. */
  lemma CoversAfter(front: seq<nat>, rest: seq<nat>, q: int, width: nat)
    requires Covers(rest, q, width)
    ensures Covers(front + rest, q, width)
  {
    var i :| 0 <= i < |rest| && rest[i] <= q < rest[i] + width;
    assert (front + rest)[|front| + i] == rest[i];
  }

  function Occurrences(s: string, pat: string): seq<nat>
    requires |pat| > 0
  {
    OccurrencesFrom(s, pat, 0)
  }

  // ---------------------------------------------------------------- lines and split

  /** The index of the first `c` in `s` at or after `k`. */
  function IndexOfFrom(s: string, c: char, k: nat): (r: Option<nat>)
    ensures r.Some? ==> k <= r.value < |s| && s[r.value] == c
    ensures r.Some? ==> forall j | k <= j < r.value :: s[j] != c
    ensures r.None? ==> forall j | k <= j < |s| :: s[j] != c
    decreases |s| - k
  {
    if k >= |s| then None
    else if s[k] == c then Some(k)
    else IndexOfFrom(s, c, k + 1)
  }

  /** Drops one trailing carriage return. */
  function StripCarriageReturn(line: string): string
  {
    if |line| > 0 && line[|line| - 1] == '\r' then line[..|line| - 1] else line
  }

  /** `str::lines`: split at `\n` (dropping a `\r` before it), with no empty line
      after a final terminator. */
  function Lines(s: string): seq<string>
    decreases |s|
  {
    if |s| == 0 then []
    else match IndexOfFrom(s, '\n', 0)
      case None => [s]
      case Some(j) => [StripCarriageReturn(s[..j])] + Lines(s[j + 1..])
  }

  /** `str::split(sep)`: at least one piece; empty pieces kept. */
  function Split(s: string, sep: char): (r: seq<string>)
    ensures |r| >= 1
    ensures forall i | 0 <= i < |r| :: sep !in r[i]
    decreases |s|
  {
    match IndexOfFrom(s, sep, 0)
      case None => [s]
      case Some(j) => [s[..j]] + Split(s[j + 1..], sep)
  }

  /** The pieces joined back with the separator: the inverse of `Split`. */
  function Join(pieces: seq<string>, sep: char): string
  {
    if |pieces| == 0 then ""
    else if |pieces| == 1 then pieces[0]
    else pieces[0] + [sep] + Join(pieces[1..], sep)
  }

  /** Splitting and joining are inverse: splitting the joined text gives the pieces
      back when none of them holds the separator, and joining the pieces of a split
      gives the text back. */
  lemma {:induction false} SplitJoin(pieces: seq<string>, sep: char)
    requires |pieces| >= 1
    requires forall i | 0 <= i < |pieces| :: sep !in pieces[i]
    ensures Split(Join(pieces, sep), sep) == pieces
  {
    var p := pieces[0];
    if |pieces| == 1 {
      assert IndexOfFrom(p, sep, 0).None?;
    } else {
      var rest := Join(pieces[1..], sep);
      var s := p + [sep] + rest;
      assert s[|p|] == sep;
      assert forall j | 0 <= j < |p| :: s[j] == p[j];
      assert IndexOfFrom(s, sep, 0) == Some(|p|);
      assert s[..|p|] == p;
      assert s[|p| + 1..] == rest;
      SplitJoin(pieces[1..], sep);
    }
  }

  lemma {:induction false} JoinSplit(s: string, sep: char)
    ensures Join(Split(s, sep), sep) == s
    decreases |s|
  {
    match IndexOfFrom(s, sep, 0)
    case None =>
    case Some(j) =>
      var rest := Split(s[j + 1..], sep);
      assert Split(s, sep) == [s[..j]] + rest;
      assert ([s[..j]] + rest)[1..] == rest;
      assert Join([s[..j]] + rest, sep) == s[..j] + [sep] + Join(rest, sep);
      JoinSplit(s[j + 1..], sep);
      assert s == s[..j] + [sep] + s[j + 1..];
  }

  /** `trim_start_matches(c)`. */
  function TrimStartChar(s: string, c: char): (r: string)
    ensures |r| <= |s| && r == s[|s| - |r|..]
    ensures |r| == 0 || r[0] != c
    ensures forall i | 0 <= i < |s| - |r| :: s[i] == c
  {
    if |s| > 0 && s[0] == c then TrimStartChar(s[1..], c) else s
  }

  /** `trim_end_matches(c)`. */
  function TrimEndChar(s: string, c: char): (r: string)
    ensures |r| <= |s| && r == s[..|r|]
    ensures |r| == 0 || r[|r| - 1] != c
    ensures forall i | |r| <= i < |s| :: s[i] == c
  {
    if |s| > 0 && s[|s| - 1] == c then TrimEndChar(s[..|s| - 1], c) else s
  }
}
