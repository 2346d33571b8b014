/** Resolution of the `window` and `step` request parameters into the range-query
    span, step and range selector, and the number of backfill buckets
    (backend/src/index.ts:39-53 and 121; api/index.ts:21-32 and 85). */
module Window {
  import opened Wrappers

  predicate IsDigit(c: char) {
    '0' <= c <= '9'
  }

  /** The white space and line terminators `parseInt` skips before the number
      (the WhiteSpace and LineTerminator code points of ECMA-262). */
  predicate IsSpace(c: char) {
    || c == '\t' || c == '\n' || c == '\U{0B}' || c == '\U{0C}' || c == '\r' || c == ' '
    || c == '\U{A0}' || c == '\U{1680}' || ('\U{2000}' <= c <= '\U{200A}')
    || c == '\U{2028}' || c == '\U{2029}' || c == '\U{202F}' || c == '\U{205F}'
    || c == '\U{3000}' || c == '\U{FEFF}'
  }

  /** The value of `c` as a digit of base `radix`: `0`-`9`, then `a`-`z` or `A`-`Z`
      for 10 to 35; none when it is not below `radix`. */
  function DigitIn(c: char, radix: nat): (d: Option<nat>)
    ensures d.Some? ==> d.value < radix
    ensures radix == 10 ==> (d.Some? <==> IsDigit(c))
  {
    var v := if '0' <= c <= '9' then c as int - '0' as int
      else if 'a' <= c <= 'z' then c as int - 'a' as int + 10
      else if 'A' <= c <= 'Z' then c as int - 'A' as int + 10
      else 36;
    if v < radix then Some(v) else None
  }

  predicate AllDigitsIn(s: string, radix: nat) {
    forall i :: 0 <= i < |s| ==> DigitIn(s[i], radix).Some?
  }

  /** The length of the leading run of base-`radix` digits of `s`. */
  function DigitRun(s: string, radix: nat): (n: nat)
    ensures n <= |s|
    ensures AllDigitsIn(s[..n], radix)
    ensures n < |s| ==> DigitIn(s[n], radix).None?
  {
    if s == [] || DigitIn(s[0], radix).None? then 0
    else
      var n := 1 + DigitRun(s[1..], radix);
      assert forall i :: 1 <= i < n ==> s[..n][i] == s[1..][..n - 1][i - 1];
      n
  }

  /** The value of a string of base-`radix` digits, most significant first. */
  function Value(ds: string, radix: nat): nat
    requires AllDigitsIn(ds, radix)
  {
    if ds == [] then 0
    else Value(ds[..|ds| - 1], radix) * radix + DigitIn(ds[|ds| - 1], radix).value
  }

  /** `s` without its leading white space. */
  function TrimStart(s: string): (t: string)
    ensures |t| <= |s|
    ensures t == [] || !IsSpace(t[0])
  {
    if s != [] && IsSpace(s[0]) then TrimStart(s[1..]) else s
  }

  /** The number after the sign: base 16 behind a `0x` or `0X` prefix, base 10
      otherwise; NaN (`None`) when no digit of that base follows. */
  function Unsigned(u: string): Option<nat> {
    var hex := |u| >= 2 && u[0] == '0' && (u[1] == 'x' || u[1] == 'X');
    var radix := if hex then 16 else 10;
    var ds := if hex then u[2..] else u;
    var n := DigitRun(ds, radix);
    if n == 0 then None else Some(Value(ds[..n], radix))
  }

  lemma TrimStartNoSpace(t: string)
    requires t == [] || !IsSpace(t[0])
    ensures TrimStart(t) == t
  {
  }

  /** The number at the head of `t`: an optional `+` or `-`, then the number of
      `Unsigned`. */
  function Signed(t: string): (r: Option<int>) {
    if |t| > 0 && t[0] == '-' then
      match Unsigned(t[1..])
      case None => None
      case Some(m) => Some(0 - m as int)
    else if |t| > 0 && t[0] == '+' then Unsigned(t[1..])
    else Unsigned(t)
  }

  /** `parseInt(s)` with no radix, as ECMA-262 defines it: leading white space is
      skipped, then the number of `Signed` is read; whatever follows its digits is
      ignored. `None` stands for NaN. */
  function ParseInt(s: string): (r: Option<int>) {
    Signed(TrimStart(s))
  }

  function DigitChar(d: nat): (c: char)
    requires d < 10
    ensures IsDigit(c) && DigitIn(c, 10) == Some(d)
  {
    ('0' as int + d) as char
  }

  /** The decimal notation of `n`, without leading zeros. */
  function ShowNat(n: nat): (s: string)
    ensures |s| > 0 && AllDigitsIn(s, 10)
    ensures s[0] == '0' <==> n == 0
  {
    if n < 10 then [DigitChar(n)]
    else
      var p := ShowNat(n / 10);
      var s := p + [DigitChar(n % 10)];
      assert forall i :: 0 <= i < |p| ==> s[i] == p[i];
      s
  }

  lemma {:induction false} ValueShow(n: nat)
    ensures Value(ShowNat(n), 10) == n
  {
    if n >= 10 {
      ValueShow(n / 10);
      var s := ShowNat(n);
      assert s[..|s| - 1] == ShowNat(n / 10);
    }
  }

  lemma {:induction false} DigitRunPrefix(ds: string, rest: string, radix: nat)
    requires AllDigitsIn(ds, radix)
    requires rest == [] || DigitIn(rest[0], radix).None?
    ensures DigitRun(ds + rest, radix) == |ds|
  {
    if ds != [] {
      assert (ds + rest)[1..] == ds[1..] + rest;
      DigitRunPrefix(ds[1..], rest, radix);
    } else {
      assert ds + rest == rest;
    }
  }

  /** `parseInt` reads back a decimal numeral followed by any text that does not
      continue it: not a digit, and for the numeral `0` not an `x` that would make
      it a hexadecimal prefix. */
  lemma ParseIntShow(n: nat, rest: string)
    requires rest == [] || !IsDigit(rest[0])
    requires n == 0 ==> rest == [] || (rest[0] != 'x' && rest[0] != 'X')
    ensures ParseInt(ShowNat(n) + rest) == Some(n)
  {
    var s := ShowNat(n);
    var t := s + rest;
    assert t[0] == s[0] && IsDigit(s[0]);
    TrimStartNoSpace(t);
    assert ParseInt(t) == Unsigned(t);
    if n == 0 {
      assert s == "0";
      assert |t| >= 2 ==> t[1] == rest[0];
    }
    assert !(|t| >= 2 && t[0] == '0' && (t[1] == 'x' || t[1] == 'X'));
    DigitRunPrefix(s, rest, 10);
    assert t[..|s|] == s;
    ValueShow(n);
  }

  lemma {:induction false} TrimStartSkips(ws: string, s: string)
    requires forall i :: 0 <= i < |ws| ==> IsSpace(ws[i])
    ensures TrimStart(ws + s) == TrimStart(s)
  {
    if ws != [] {
      assert (ws + s)[0] == ws[0];
      assert (ws + s)[1..] == ws[1..] + s;
      TrimStartSkips(ws[1..], s);
    } else {
      assert ws + s == s;
    }
  }

  /** Leading white space does not change what `parseInt` reads. */
  lemma ParseIntSkipsSpace(ws: string, s: string)
    requires forall i :: 0 <= i < |ws| ==> IsSpace(ws[i])
    ensures ParseInt(ws + s) == ParseInt(s)
  {
    TrimStartSkips(ws, s);
  }

  /** A `+` in front of a number changes nothing and a `-` negates it; NaN stays
      NaN. A second sign, or white space after the sign, is not skipped. */
  lemma ParseIntSign(s: string)
    requires s == [] || (!IsSpace(s[0]) && s[0] != '+' && s[0] != '-')
    ensures ParseInt("+" + s) == ParseInt(s)
    ensures ParseInt("-" + s).Some? <==> ParseInt(s).Some?
    ensures ParseInt(s).Some? ==> ParseInt("-" + s).value == -ParseInt(s).value
  {
    var plus, minus := "+" + s, "-" + s;
    assert plus[1..] == s && minus[1..] == s;
    TrimStartNoSpace(plus);
    TrimStartNoSpace(minus);
    TrimStartNoSpace(s);
    assert ParseInt(plus) == Unsigned(s);
    assert ParseInt(s) == Unsigned(s);
  }

  lemma ShowDefaultStep()
    ensures ShowNat(86400) == "86400"
  {
    assert ShowNat(8) == "8";
    assert ShowNat(86) == "86";
    assert ShowNat(864) == "864";
    assert ShowNat(8640) == "8640";
  }

  /** The daily default step reads as 86400. */
  lemma DefaultStepParses()
    ensures ParseInt("86400") == Some(86400)
  {
    ShowDefaultStep();
    ParseIntShow(86400, "");
    assert ShowNat(86400) + "" == "86400";
  }

  /** A hexadecimal step is read in base 16; a prefix with no digit after it, or
      text with no leading digit, is NaN. */
  lemma ParseIntHexAndNaN()
    ensures ParseInt("0x3c") == Some(60)
    ensures ParseInt("0x") == None
    ensures ParseInt("") == None
    ensures ParseInt("abc") == None
  {
    TrimStartNoSpace("0x3c");
    assert "0x3c"[2..] == "3c";
    assert DigitIn('3', 16) == Some(3) && DigitIn('c', 16) == Some(12);
    assert DigitRun("3c"[1..], 16) == 1;
    assert DigitRun("3c", 16) == 2;
    assert "3c"[..2] == "3c" && "3c"[..1] == "3";
    assert Value("3c", 16) == 60;
    TrimStartNoSpace("0x");
    TrimStartNoSpace("abc");
    assert DigitIn('a', 10) == None;
    assert DigitRun("abc", 10) == 0;
  }

  /** What the history pipeline derives from `window` and `step`. The step is
      `None` where `parseInt` gives NaN. */
  datatype Resolved = Resolved(span: int, step: Option<int>, range: string, requiredDays: nat)

  /** The length of one backfill bucket: an hour for `24h`, a day otherwise. */
  function BucketSeconds(windowStr: string): int {
    if windowStr == "24h" then 3600 else 86400
  }

  /** `start = end - span`; `step = parseInt(stepStr)` unless a `24h` window comes with
      the literal daily default `"86400"`, which is forced down to an hour; `range` is
      the `increase`/`avg_over_time` range selector; `requiredDays` the bucket count. */
  function ResolveWindow(windowStr: string, stepStr: string): (w: Resolved)
    ensures w.span == w.requiredDays * BucketSeconds(windowStr)
    ensures w.requiredDays == 24 <==> windowStr == "24h"
    ensures w.requiredDays == 30 <==> windowStr == "30d"
    ensures w.requiredDays in {7, 24, 30}
    ensures w.range == "1h" <==> windowStr == "24h"
    ensures w.range in {"1h", "24h"}
    ensures windowStr == "24h" && stepStr == "86400" ==> w.step == Some(3600)
    ensures !(windowStr == "24h" && stepStr == "86400") ==> w.step == ParseInt(stepStr)
  {
    var step := ParseInt(stepStr);
    var requiredDays := if windowStr == "24h" then 24 else if windowStr == "30d" then 30 else 7;
    if windowStr == "24h" then
      Resolved(24 * 3600, if stepStr == "86400" then Some(3600) else step, "1h", requiredDays)
    else if windowStr == "30d" then
      Resolved(30 * 24 * 3600, step, "24h", requiredDays)
    else
      Resolved(7 * 24 * 3600, step, "24h", requiredDays)
  }

  /** Any window string other than `24h` and `30d`, including an empty or misspelt
      one, is treated as `7d`. */
  lemma UnknownWindowIsWeek(windowStr: string, stepStr: string)
    requires windowStr != "24h" && windowStr != "30d"
    ensures ResolveWindow(windowStr, stepStr) == ResolveWindow("7d", stepStr)
  {
  }

  /** The daily step written with a unit after it, or with white space before it,
      still reads as 86400. */
  lemma DefaultStepVariantsParse()
    ensures ParseInt("86400s") == Some(86400)
    ensures ParseInt(" 86400") == Some(86400)
  {
    ShowDefaultStep();
    ParseIntShow(86400, "s");
    assert ShowNat(86400) + "s" == "86400s";
    DefaultStepParses();
    TrimStartNoSpace("86400");
    assert " 86400"[1..] == "86400";
    assert TrimStart(" 86400") == "86400";
  }

  /** The hourly override compares the step as text: the same daily step written
      differently is not overridden. */
  lemma HourlyOverrideIsTextual()
    ensures ResolveWindow("24h", "86400").step == Some(3600)
    ensures ResolveWindow("24h", "86400s").step == Some(86400)
    ensures ResolveWindow("24h", " 86400").step == Some(86400)
  {
    DefaultStepVariantsParse();
    assert ResolveWindow("24h", "86400s").step == ParseInt("86400s");
    assert ResolveWindow("24h", " 86400").step == ParseInt(" 86400");
  }
}
