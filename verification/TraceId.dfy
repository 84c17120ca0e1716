// Trace ids and job ids: a job's id is its trace id printed in the grouping of a UUID, and the tracer reads the
// trace id back from it.

module TraceId {
  import opened Wrappers

  datatype TraceError = NotThirtyTwoDigits | NotAUuid | NotANumber

  const DIGITS := "0123456789abcdef"

  function Pow16(n: nat): nat {
    if n == 0 then 1 else 16 * Pow16(n - 1)
  }

  /** Hexadecimal digits without leading zeros. */
  function Hex(t: nat): string {
    if t < 16 then [DIGITS[t]] else Hex(t / 16) + [DIGITS[t % 16]]
  }

  function Zeros(n: nat): string {
    seq(n, _ => '0')
  }

  /** At least 32 digits, with leading zeros. */
  function FormatTraceId(t: nat): string {
    if |Hex(t)| < 32 then Zeros(32 - |Hex(t)|) + Hex(t) else Hex(t)
  }

  /** Groups of 8, 4, 4, 4 and 12 digits. */
  function Grouped(s: string): string
    requires |s| >= 20
  {
    s[..8] + "-" + s[8..12] + "-" + s[12..16] + "-" + s[16..20] + "-" + s[20..]
  }

  function TraceIdToUuid(t: nat): Result<string, TraceError> {
    if |FormatTraceId(t)| != 32 then Err(NotThirtyTwoDigits) else Ok(Grouped(FormatTraceId(t)))
  }

  function WithoutHyphens(s: string): string {
    if s == "" then "" else (if s[0] == '-' then "" else [s[0]]) + WithoutHyphens(s[1..])
  }

  function UuidToTraceId(uuid: string): Result<string, TraceError> {
    if |uuid| != 36 then Err(NotAUuid) else Ok(WithoutHyphens(uuid))
  }

  function DigitValue(c: char): Option<nat> {
    if '0' <= c <= '9' then Some(c as int - '0' as int)
    else if 'a' <= c <= 'f' then Some(c as int - 'a' as int + 10)
    else if 'A' <= c <= 'F' then Some(c as int - 'A' as int + 10)
    else None
  }

  /** The number that hexadecimal digits stand for. */
  function ParseHex(s: string): Option<nat> {
    if s == "" then None
    else
      var high := if |s| == 1 then Some(0) else ParseHex(s[..|s| - 1]);
      var low := DigitValue(s[|s| - 1]);
      if high.Some? && low.Some? then Some(16 * high.value + low.value) else None
  }

  /** The tracer's reading of a job id: 36 characters are taken for a UUID. */
  function RecoverTraceId(jobId: string): Option<nat> {
    ParseHex(if |jobId| == 36 then WithoutHyphens(jobId) else jobId)
  }

  // ---------------------------------------------------------------------------
  // Digits
  // ---------------------------------------------------------------------------

  lemma DigitOf(d: nat)
    requires d < 16
    ensures DigitValue(DIGITS[d]) == Some(d) && DIGITS[d] != '-'
  {
  }

  lemma ParseLast(s: string, c: char)
    requires DigitValue(c).Some?
    ensures s == "" ==> ParseHex(s + [c]) == DigitValue(c)
    ensures s != "" && ParseHex(s).Some? ==>
              ParseHex(s + [c]) == Some(16 * ParseHex(s).value + DigitValue(c).value)
  {
    assert (s + [c])[..|s|] == s;
  }

  lemma {:induction false} ParseOfHex(t: nat)
    ensures Hex(t) != "" && ParseHex(Hex(t)) == Some(t) && '-' !in Hex(t)
  {
    if t < 16 {
      DigitOf(t);
      ParseLast("", DIGITS[t]);
    } else {
      ParseOfHex(t / 16);
      ParseOneMore(Hex(t / 16), t / 16, t % 16);
    }
  }

  lemma ParseOneMore(front: string, t: nat, d: nat)
    requires front != "" && ParseHex(front) == Some(t) && '-' !in front && d < 16
    ensures ParseHex(front + [DIGITS[d]]) == Some(16 * t + d) && '-' !in front + [DIGITS[d]]
  {
    DigitOf(d);
    ParseLast(front, DIGITS[d]);
  }

  lemma {:induction false} LeadingZero(s: string)
    requires ParseHex(s).Some?
    ensures ParseHex("0" + s) == ParseHex(s)
  {
    var front, c := s[..|s| - 1], s[|s| - 1];
    assert s == front + [c];
    if |s| == 1 {
      ParseLast("0", c);
      ParseLast("", '0');
      assert "0" + s == "0" + [c];
    } else {
      LeadingZero(front);
      ParseLast("0" + front, c);
      assert "0" + s == "0" + front + [c];
    }
  }

  lemma {:induction false} LeadingZeros(n: nat, s: string)
    requires ParseHex(s).Some?
    ensures ParseHex(Zeros(n) + s) == ParseHex(s)
  {
    if n == 0 {
      assert Zeros(0) + s == s;
    } else {
      LeadingZeros(n - 1, s);
      LeadingZero(Zeros(n - 1) + s);
      assert Zeros(n) + s == "0" + (Zeros(n - 1) + s);
    }
  }

  lemma {:induction false} HexLength(t: nat, n: nat)
    requires n > 0
    ensures |Hex(t)| <= n <==> t < Pow16(n)
  {
    if n == 1 {
      assert Pow16(1) == 16 * Pow16(0);
      assert t >= 16 ==> |Hex(t / 16)| >= 1;
    } else if t < 16 {
      PowPositive(n - 1);
    } else {
      HexLength(t / 16, n - 1);
    }
  }

  lemma {:induction false} PowPositive(n: nat)
    ensures Pow16(n) >= 1
  {
    if n > 0 {
      PowPositive(n - 1);
    }
  }

  lemma {:induction false} PowSum(a: nat, b: nat)
    ensures Pow16(a + b) == Pow16(a) * Pow16(b)
  {
    if a > 0 {
      PowSum(a - 1, b);
    }
  }

  lemma PowOf32()
    ensures Pow16(32) == 0x1_0000_0000_0000_0000_0000_0000_0000_0000
  {
    assert Pow16(4) == 0x1_0000;
    PowSum(4, 4);
    PowSum(8, 8);
    PowSum(16, 16);
  }

  /** A trace id has the 128 bits of section 3.2.2.3 of W3C Trace Context exactly if it prints in 32 digits. */
  lemma ThirtyTwoDigitsIff(t: nat)
    ensures |FormatTraceId(t)| == 32 <==> t < 0x1_0000_0000_0000_0000_0000_0000_0000_0000
  {
    HexLength(t, 32);
    PowOf32();
  }

  lemma ParseOfFormat(t: nat)
    ensures ParseHex(FormatTraceId(t)) == Some(t) && '-' !in FormatTraceId(t)
  {
    ParseOfHex(t);
    if |Hex(t)| < 32 {
      LeadingZeros(32 - |Hex(t)|, Hex(t));
    }
  }

  // ---------------------------------------------------------------------------
  // Grouping
  // ---------------------------------------------------------------------------

  lemma {:induction false} WithoutHyphensConcat(a: string, b: string)
    ensures WithoutHyphens(a + b) == WithoutHyphens(a) + WithoutHyphens(b)
  {
    if a == "" {
      assert a + b == b;
    } else {
      assert (a + b)[1..] == a[1..] + b;
      WithoutHyphensConcat(a[1..], b);
    }
  }

  lemma {:induction false} NoHyphens(s: string)
    requires '-' !in s
    ensures WithoutHyphens(s) == s
  {
    if s != "" {
      NoHyphens(s[1..]);
    }
  }

  lemma OneHyphen()
    ensures WithoutHyphens("-") == ""
  {
    assert "-"[1..] == "";
  }

  lemma DropHyphen(a: string)
    ensures WithoutHyphens(a + "-") == WithoutHyphens(a)
  {
    WithoutHyphensConcat(a, "-");
    OneHyphen();
    assert WithoutHyphens(a) + "" == WithoutHyphens(a);
  }

  lemma HyphenBetween(a: string, b: string)
    requires '-' !in b
    ensures WithoutHyphens(a + "-" + b) == WithoutHyphens(a) + b
  {
    WithoutHyphensConcat(a + "-", b);
    DropHyphen(a);
    NoHyphens(b);
  }

  lemma UngroupGrouped(s: string)
    requires |s| == 32 && '-' !in s
    ensures |Grouped(s)| == 36 && WithoutHyphens(Grouped(s)) == s
  {
    var a, b, c, d, e := s[..8], s[8..12], s[12..16], s[16..20], s[20..];
    NoHyphens(a);
    HyphenBetween(a, b);
    HyphenBetween(a + "-" + b, c);
    HyphenBetween(a + "-" + b + "-" + c, d);
    HyphenBetween(a + "-" + b + "-" + c + "-" + d, e);
    assert s == a + b + c + d + e;
  }

  /** The job id that the interface gives a submission is read back by the tracer as its trace id, for every trace
      id of 128 bits; a longer number has no job id. */
  lemma TraceIdRoundTrip(t: nat)
    ensures TraceIdToUuid(t).Ok? <==> t < 0x1_0000_0000_0000_0000_0000_0000_0000_0000
    ensures TraceIdToUuid(t).Ok? ==>
              && |TraceIdToUuid(t).value| == 36
              && UuidToTraceId(TraceIdToUuid(t).value) == Ok(FormatTraceId(t))
              && UuidToTraceId(FormatTraceId(t)) == Err(NotAUuid)
              && RecoverTraceId(TraceIdToUuid(t).value) == Some(t)
  {
    ThirtyTwoDigitsIff(t);
    ParseOfFormat(t);
    if |FormatTraceId(t)| == 32 {
      UngroupGrouped(FormatTraceId(t));
    }
  }

  lemma {:induction false} HexOfDigits(t: nat)
    ensures forall k :: 0 <= k < |Hex(t)| ==> Hex(t)[k] in "0123456789abcdef"
  {
    if t >= 16 {
      HexOfDigits(t / 16);
    }
  }

  lemma FormatOfHex(t: nat)
    ensures forall k :: 0 <= k < |FormatTraceId(t)| ==> FormatTraceId(t)[k] in "0123456789abcdef"
  {
    HexOfDigits(t);
  }

  /** Where the digits of 32 come to stand. */
  lemma GroupedAt(s: string, k: nat)
    requires |s| == 32 && k < 36
    ensures |Grouped(s)| == 36
    ensures Grouped(s)[k] == if k < 8 then s[k] else if k == 8 then '-' else if k < 13 then s[k - 1]
                             else if k == 13 then '-' else if k < 18 then s[k - 2] else if k == 18 then '-'
                             else if k < 23 then s[k - 3] else if k == 23 then '-' else s[k - 4]
  {
  }

  /** A job id has hyphens at its positions 8, 13, 18 and 23, and lower-case hexadecimal digits at all others. */
  lemma JobIdShape(t: nat, k: nat)
    requires TraceIdToUuid(t).Ok? && k < 36
    ensures |TraceIdToUuid(t).value| == 36
    ensures if k in {8, 13, 18, 23} then TraceIdToUuid(t).value[k] == '-'
            else TraceIdToUuid(t).value[k] in "0123456789abcdef"
  {
    GroupedAt(FormatTraceId(t), k);
    FormatOfHex(t);
  }

  /** Distinct trace ids get distinct job ids. */
  lemma JobIdsDistinct(t: nat, u: nat)
    requires TraceIdToUuid(t).Ok? && TraceIdToUuid(t) == TraceIdToUuid(u)
    ensures t == u
  {
    TraceIdRoundTrip(t);
    TraceIdRoundTrip(u);
  }

  // ---------------------------------------------------------------------------
  // From job ids
  // ---------------------------------------------------------------------------

  predicate LowerHex(s: string) {
    forall k :: 0 <= k < |s| ==> s[k] in DIGITS
  }

  lemma DigitPrinted(c: char)
    requires c in DIGITS
    ensures DigitValue(c).Some? && DigitValue(c).value < 16 && DIGITS[DigitValue(c).value] == c && c != '-'
  {
  }

  /** The other case of a hexadecimal digit that is a letter. */
  function Capital(c: char): char {
    if 'a' <= c <= 'f' then (c as int - 32) as char else c
  }

  function Capitals(s: string): string {
    seq(|s|, k requires 0 <= k < |s| => Capital(s[k]))
  }

  lemma CapitalDigit(c: char)
    requires '0' <= c <= '9' || 'a' <= c <= 'f'
    ensures DigitValue(Capital(c)) == DigitValue(c)
  {
  }

  /** The tracer reads capital digits as it reads small ones. */
  lemma {:induction false} CaseIsIrrelevant(s: string)
    requires forall k :: 0 <= k < |s| ==> '0' <= s[k] <= '9' || 'a' <= s[k] <= 'f'
    ensures ParseHex(Capitals(s)) == ParseHex(s)
  {
    if s != "" {
      var n := |s| - 1;
      CaseIsIrrelevant(s[..n]);
      CapitalDigit(s[n]);
      assert Capitals(s)[..n] == Capitals(s[..n]);
    }
  }

  /** Printing what digits stand for gives them back, as many as there are. */
  function Digits(t: nat, n: nat): string {
    if n == 0 then "" else Digits(t / 16, n - 1) + [DIGITS[t % 16]]
  }

  ghost predicate Reprints(s: string, t: nat) {
    ParseHex(s) == Some(t) && Digits(t, |s|) == s && t < Pow16(|s|)
  }

  lemma ReprintsDigit(c: char) returns (t: nat)
    requires c in DIGITS
    ensures Reprints([c], t)
  {
    DigitPrinted(c);
    ParseLast("", c);
    assert "" + [c] == [c];
    t := DigitValue(c).value;
    PushDigit(0, 0, t);
  }

  lemma ParsesMore(front: string, c: char, t: nat) returns (d: nat)
    requires front != "" && ParseHex(front) == Some(t) && c in DIGITS
    ensures d < 16 && DIGITS[d] == c && ParseHex(front + [c]) == Some(16 * t + d)
  {
    DigitPrinted(c);
    ParseLast(front, c);
    d := DigitValue(c).value;
  }

  lemma PrintsMore(front: string, t: nat, d: nat)
    requires d < 16 && t < Pow16(|front|) && Digits(t, |front|) == front
    ensures Digits(16 * t + d, |front| + 1) == front + [DIGITS[d]] && 16 * t + d < Pow16(|front| + 1)
  {
    PushDigit(t, |front|, d);
  }

  lemma ReprintsMore(s: string, t: nat, c: char) returns (t': nat)
    requires s != "" && Reprints(s[..|s| - 1], t) && c in DIGITS && c == s[|s| - 1] && |s| > 1
    ensures Reprints(s, t')
  {
    var front := s[..|s| - 1];
    assert s == front + [c];
    var d := ParsesMore(front, c, t);
    PrintsMore(front, t, d);
    t' := 16 * t + d;
  }

  lemma {:induction false} DigitsOfParse(s: string) returns (t: nat)
    requires s != "" && LowerHex(s)
    ensures Reprints(s, t)
  {
    if |s| > 1 {
      var high := DigitsOfParse(s[..|s| - 1]);
      t := ReprintsMore(s, high, s[|s| - 1]);
    } else {
      assert s == [s[0]];
      t := ReprintsDigit(s[0]);
    }
  }

  lemma PushDigit(t: nat, n: nat, d: nat)
    requires d < 16 && t < Pow16(n)
    ensures Digits(16 * t + d, n + 1) == Digits(t, n) + [DIGITS[d]] && 16 * t + d < Pow16(n + 1)
  {
    assert (16 * t + d) / 16 == t && (16 * t + d) % 16 == d;
  }

  lemma {:induction false} DigitsArePadded(t: nat, n: nat)
    requires n > 0 && |Hex(t)| <= n
    ensures Digits(t, n) == Zeros(n - |Hex(t)|) + Hex(t)
  {
    if t >= 16 {
      HexSplits(t);
      DigitsArePadded(t / 16, n - 1);
      PadMore(n - |Hex(t)|, Hex(t / 16), DIGITS[t % 16]);
    } else {
      ZeroDigits(n - 1);
    }
  }

  lemma HexSplits(t: nat)
    requires t >= 16
    ensures Hex(t) == Hex(t / 16) + [DIGITS[t % 16]] && |Hex(t / 16)| >= 1
  {
  }

  lemma PadMore(zeros: nat, front: string, c: char)
    ensures Zeros(zeros) + front + [c] == Zeros(zeros) + (front + [c])
  {
  }

  lemma {:induction false} ZeroDigits(n: nat)
    ensures Digits(0, n) == Zeros(n)
  {
    if n > 0 {
      ZeroDigits(n - 1);
      assert Zeros(n - 1) + "0" == Zeros(n);
    }
  }

  /** Every job id of the right shape is the one its recovered trace id is given. */
  lemma JobIdRoundTrip(s: string)
    requires |s| == 32 && LowerHex(s)
    ensures RecoverTraceId(Grouped(s)).Some?
    ensures TraceIdToUuid(RecoverTraceId(Grouped(s)).value) == Ok(Grouped(s))
  {
    forall k | 0 <= k < |s| ensures s[k] != '-' {
      DigitPrinted(s[k]);
    }
    UngroupGrouped(s);
    FormatOfParse(s);
  }

  lemma FormatOfParse(s: string)
    requires |s| == 32 && LowerHex(s)
    ensures ParseHex(s).Some? && FormatTraceId(ParseHex(s).value) == s
  {
    var t := DigitsOfParse(s);
    HexLength(t, |s|);
    DigitsArePadded(t, |s|);
    FormatPads(t, |s|);
  }

  lemma FormatPads(t: nat, n: nat)
    requires |Hex(t)| <= n == 32
    ensures FormatTraceId(t) == Zeros(n - |Hex(t)|) + Hex(t)
  {
    assert Zeros(0) + Hex(t) == Hex(t);
  }
}
