/** Yuan strings and fen amounts: the parser accepts exactly the decimal numerals of bounded value,
    the printer is its inverse, and no 64-bit operation overflows. */
module Money {
  import opened Prelude
  import opened Decimal

  newtype int64 = x: int | -0x8000_0000_0000_0000 <= x < 0x8000_0000_0000_0000
  newtype uint64 = x: int | 0 <= x < 0x1_0000_0000_0000_0000

  /** Hundredths denoted by at most two digits after the point. */
  function Hundredths(s: string): int { if |s| == 1 then 10 * Value(s) else Value(s) }

  const MAX_YUAN := 1000000009
  const MAX_FEN := 100000000999

  /** sign, digits before the point, digits after it; the point itself may be missing. */
  datatype Numeral = Numeral(sign: string, whole: string, dot: bool, frac: string) {
    predicate Valid() {
      && sign in {"", "+", "-"} && AllDigits(whole) && AllDigits(frac) && |frac| <= 2
      && (!dot ==> frac == "") && |whole| + |frac| >= 1
    }
    function Body(): string { if dot then whole + "." + frac else whole }
    function Text(): string { sign + Body() }
    function Fen(): int {
      var abs := Value(whole) * 100 + Hundredths(frac);
      if sign == "-" then -abs else abs
    }
  }

  /** `raw` is a decimal numeral worth `fen` hundredths, no longer than the column and within bounds. */
  ghost predicate Denotes(raw: string, fen: int) {
    exists n: Numeral :: NumeralOf(n, raw) && n.Fen() == fen
  }

  predicate NumeralOf(n: Numeral, raw: string) {
    n.Valid() && n.Text() == raw && |raw| <= 20 && Value(n.whole) <= MAX_YUAN
  }

  /** The value is decimal: shifted by its number of decimals, it is a hundred times the number all its
      digits make without the point, with the sign. */
  lemma FenIsDecimal(n: Numeral)
    requires n.Valid()
    ensures var sign := if n.sign == "-" then -1 else 1;
            n.Fen() * Power10(|n.frac|) == sign * 100 * Value(n.whole + n.frac)
  {
    var all, w, f := Value(n.whole + n.frac), Value(n.whole), Value(n.frac);
    DigitsJoined(n.whole, n.frac);
    assert Power10(1) == 10 && Power10(2) == 100;
    hide Value, AllDigits, Power10;
    if |n.frac| == 0 {
      assert 100 * w * 1 == 100 * all;
    } else if |n.frac| == 1 {
      assert (100 * w + 10 * f) * 10 == 100 * all;
    } else {
      assert (100 * w + f) * 100 == 100 * all;
    }
  }

  lemma DigitsJoined(whole: string, frac: string)
    requires |frac| <= 2
    ensures |frac| == 0 ==> Value(frac) == 0 && Value(whole + frac) == Value(whole)
    ensures |frac| == 1 ==> Value(whole + frac) == 10 * Value(whole) + Value(frac)
    ensures |frac| == 2 ==> Value(whole + frac) == 100 * Value(whole) + Value(frac)
  {
    if |frac| == 0 {
      assert whole + frac == whole;
    } else if |frac| == 1 {
      assert frac == "" + [frac[0]] && whole + frac == whole + [frac[0]];
      ValueAppend(whole, frac[0]);
      ValueAppend("", frac[0]);
    } else {
      assert frac == "" + [frac[0]] + [frac[1]] && whole + frac == whole + [frac[0]] + [frac[1]];
      ValueAppend(whole, frac[0]);
      ValueAppend(whole + [frac[0]], frac[1]);
      ValueAppend("", frac[0]);
      ValueAppend("" + [frac[0]], frac[1]);
    }
  }

  /** A text can be read as a numeral in at most one way. */
  lemma NumeralUnique(a: Numeral, b: Numeral)
    requires a.Valid() && b.Valid() && a.Text() == b.Text()
    ensures a == b
  {
    SignUnique(a, b);
    var body := a.Body();
    assert body == a.Text()[|a.sign|..] == b.Body();
    DotPosition(a);
    DotPosition(b);
    if a.dot { assert body[|a.whole|] == '.'; }
    if b.dot { assert body[|b.whole|] == '.'; }
    assert a.whole == body[..|a.whole|] && b.whole == body[..|b.whole|];
    if a.dot { assert a.frac == body[|a.whole| + 1..] && b.frac == body[|b.whole| + 1..]; }
  }

  lemma SignUnique(a: Numeral, b: Numeral)
    requires a.Valid() && b.Valid() && a.Text() == b.Text()
    ensures a.sign == b.sign
  {
    SignFirst(a);
    SignFirst(b);
  }

  lemma SignFirst(a: Numeral)
    requires a.Valid()
    ensures |a.Text()| > 0
    ensures a.sign == (if a.Text()[0] == '+' then "+" else if a.Text()[0] == '-' then "-" else "")
  {
    if a.sign == "" {
      assert a.Text() == a.Body();
      if a.whole != "" { assert a.Text()[0] == a.whole[0]; } else { assert a.Text()[0] == '.'; }
    } else {
      assert a.Text()[0] == a.sign[0];
    }
  }

  lemma DotPosition(a: Numeral)
    requires a.Valid()
    ensures forall i :: 0 <= i < |a.Body()| ==> (a.Body()[i] == '.' <==> a.dot && i == |a.whole|)
  {
  }

  lemma DenotesUnique(raw: string, f: int, g: int)
    requires Denotes(raw, f) && Denotes(raw, g)
    ensures f == g
  {
    var a: Numeral :| NumeralOf(a, raw) && a.Fen() == f;
    var b: Numeral :| NumeralOf(b, raw) && b.Fen() == g;
    NumeralUnique(a, b);
  }

  // ---- Parsing ----

  /** Where the scan stands after the sign and k further characters. */
  ghost predicate Scanned(body: string, k: nat, n: Numeral) {
    && k <= |body| && n.Body() == body[..k] && AllDigits(n.whole) && AllDigits(n.frac)
    && |n.frac| <= 2 && (!n.dot ==> n.frac == "")
  }

  function SignOf(raw: string): string {
    if raw != "" && (raw[0] == '+' || raw[0] == '-') then raw[..1] else ""
  }

  lemma BodyOf(raw: string, m: Numeral)
    requires NumeralOf(m, raw)
    ensures SignOf(raw) == m.sign && m.Body() == raw[|m.sign|..]
  {
    SignFirst(m);
  }

  /** Why each early exit is right: the part read so far cannot be completed to a numeral. */
  ghost predicate Rejected(body: string, k: nat, n: Numeral) {
    Scanned(body, k, n) && k < |body| &&
    ( (body[k] == '.' && n.dot)
    || (body[k] != '.' && !IsDigit(body[k]))
    || (IsDigit(body[k]) && !n.dot && Value(n.whole) > 100000000)
    || (IsDigit(body[k]) && n.dot && |n.frac| == 2))
  }

  lemma NotRejected(body: string, k: nat, n: Numeral, m: Numeral)
    requires Scanned(body, k, n) && k < |body|
    requires m.Valid() && m.Body() == body && Value(m.whole) <= MAX_YUAN
    ensures !Rejected(body, k, n)
  {
    DotPosition(m);
    if n.dot {
      assert body[|n.whole|] == n.Body()[|n.whole|] == '.';
      assert |m.whole| == |n.whole| && |m.frac| == |body| - |n.whole| - 1;
    } else {
      assert forall i :: 0 <= i < k ==> body[i] == n.whole[i];
      if IsDigit(body[k]) {
        if m.dot { assert body[|m.whole|] == '.'; }
        assert m.whole[..k + 1] == body[..k + 1] && body[..k + 1][..k] == n.whole;
        ValuePrefix(m.whole, k + 1);
      }
    }
    assert body[k] == '.' || IsDigit(body[k]) by {
      if k < |m.whole| { assert body[k] == m.whole[k]; }
      else if k > |m.whole| { assert body[k] == m.frac[k - |m.whole| - 1]; }
    }
  }

  lemma RejectedRaw(raw: string, k: nat, n: Numeral)
    requires Rejected(raw[|SignOf(raw)|..], k, n)
    ensures forall fen :: !Denotes(raw, fen)
  {
    forall m: Numeral | NumeralOf(m, raw) ensures false {
      BodyOf(raw, m);
      NotRejected(raw[|SignOf(raw)|..], k, n, m);
    }
  }

  /** The numeral read so far, one character later. */
  ghost function Extend(n: Numeral, c: char): Numeral {
    if c == '.' then n.(dot := true)
    else if n.dot then n.(frac := n.frac + [c])
    else n.(whole := n.whole + [c])
  }

  lemma ScanStep(body: string, k: nat, n: Numeral)
    requires Scanned(body, k, n) && k < |body| && !Rejected(body, k, n)
    ensures var m := Extend(n, body[k]);
            && Scanned(body, k + 1, m)
            && (IsDigit(body[k]) && !n.dot ==> Value(m.whole) == 10 * Value(n.whole) + DigitOf(body[k]) <= MAX_YUAN)
            && (IsDigit(body[k]) && n.dot ==> Value(m.frac) == 10 * Value(n.frac) + DigitOf(body[k]) <= 99)
  {
    hide Value;
    var c := body[k];
    assert body[..k + 1] == body[..k] + [c];
    if c != '.' {
      ValueAppend(n.frac, c);
      ValueAppend(n.whole, c);
      if n.dot { ValueBounds(n.frac + [c]); }
    }
  }

  /** What reading one more character means: either nothing can come of it, or the scan goes on. */
  lemma ScanCase(raw: string, body: string, k: nat, n: Numeral)
    requires body == raw[|SignOf(raw)|..] && Scanned(body, k, n) && k < |body|
    ensures Rejected(body, k, n) ==> forall fen :: !Denotes(raw, fen)
    ensures var c, m := body[k], Extend(n, body[k]);
            !Rejected(body, k, n) ==>
            && Scanned(body, k + 1, m) && m.sign == n.sign
            && (c == '.' ==> m == n.(dot := true))
            && (c != '.' && !n.dot ==>
                  && m.frac == n.frac && m.dot == n.dot && |m.whole| == |n.whole| + 1
                  && Value(m.whole) == 10 * Value(n.whole) + DigitOf(c) <= MAX_YUAN)
            && (c != '.' && n.dot ==>
                  && m.whole == n.whole && m.dot == n.dot && |m.frac| == |n.frac| + 1
                  && Value(m.frac) == 10 * Value(n.frac) + DigitOf(c) <= 99)
    ensures Rejected(body, k, n) <==>
            || (body[k] == '.' && n.dot)
            || (body[k] != '.' && !IsDigit(body[k]))
            || (IsDigit(body[k]) && !n.dot && Value(n.whole) > 100000000)
            || (IsDigit(body[k]) && n.dot && |n.frac| == 2)
    ensures Value(n.whole) >= 0 && Value(n.frac) >= 0
  {
    if Rejected(body, k, n) { RejectedRaw(raw, k, n); } else { ScanStep(body, k, n); }
    ValueBounds(n.whole);
    ValueBounds(n.frac);
  }

  lemma NoDigits(raw: string, n: Numeral)
    requires Scanned(raw[|SignOf(raw)|..], |raw| - |SignOf(raw)|, n) && n.sign == SignOf(raw)
    requires n.whole == "" && n.frac == ""
    ensures forall fen :: !Denotes(raw, fen)
  {
    var body := raw[|SignOf(raw)|..];
    assert body[..|body|] == body;
    forall m: Numeral ensures !NumeralOf(m, raw) {
      if NumeralOf(m, raw) {
        BodyOf(raw, m);
        DotPosition(m);
      }
    }
  }

  lemma WrongLength(raw: string)
    requires |raw| == 0 || |raw| > 20
    ensures forall fen :: !Denotes(raw, fen)
  {
    assert forall m: Numeral :: NumeralOf(m, raw) ==> |m.Body()| >= 1;
  }

  function Magnitude(yuan: int, frac: int, fracDigits: int): int {
    yuan * 100 + if fracDigits == 1 then frac * 10 else frac
  }

  lemma Accepted(raw: string, n: Numeral)
    requires Scanned(raw[|SignOf(raw)|..], |raw| - |SignOf(raw)|, n) && n.sign == SignOf(raw)
    requires |raw| <= 20 && Value(n.whole) <= MAX_YUAN && |n.whole| + |n.frac| >= 1
    ensures var abs := Magnitude(Value(n.whole), Value(n.frac), |n.frac|);
            Denotes(raw, if n.sign == "-" then -abs else abs)
    ensures 0 <= Value(n.whole) && 0 <= Value(n.frac) && (|n.frac| == 1 ==> Value(n.frac) <= 9)
  {
    ValueBounds(n.whole);
    ValueBounds(n.frac);
    var body := raw[|SignOf(raw)|..];
    assert body[..|body|] == body && n.Text() == raw;
    SignLength(raw);
    assert NumeralOf(n, raw);
  }

  /** None exactly when `raw` denotes nothing; otherwise the amount it denotes. */
  method YuanStringToFen(raw: string) returns (r: Option<int64>)
    ensures r.None? ==> forall fen :: !Denotes(raw, fen)
    ensures r.Some? ==> Denotes(raw, r.value as int) && -MAX_FEN <= r.value as int <= MAX_FEN
  {
    hide Denotes, Value, SignOf, Scanned, Rejected, Extend;
    if |raw| == 0 || |raw| > 20 {
      WrongLength(raw);
      return None;
    }
    var i := 0;
    var negative := false;
    if raw[i] == '+' || raw[i] == '-' {
      negative := raw[i] == '-';
      i := i + 1;
    }
    ghost var sign := SignOf(raw);
    SignLength(raw);
    assert negative <==> sign == "-";
    ghost var body := raw[i..];
    ghost var n := Numeral(sign, "", false, "");
    ScanStart(body, n);
    var yuan: int64, frac: int64, fracDigits: int64, seenDot, seenDigit := 0, 0, 0, false, false;
    while i < |raw|
      invariant |sign| <= i <= |raw| && sign == n.sign && Scanned(body, i - |sign|, n)
      invariant yuan as int == Value(n.whole) <= MAX_YUAN && frac as int == Value(n.frac) <= 99
      invariant fracDigits as int == |n.frac| && seenDot == n.dot && seenDigit == (|n.whole| + |n.frac| >= 1)
    {
      var c := raw[i];
      ghost var k := i - |sign|;
      ScanCase(raw, body, k, n);
      if c == '.' {
        if seenDot {
          return None;
        }
        seenDot := true;
        n := Extend(n, c);
        i := i + 1;
        continue;
      }
      if c < '0' || c > '9' {
        return None;
      }
      seenDigit := true;
      var d: int64 := c as int64 - '0' as int64;
      if !seenDot {
        if yuan > 100000000 {
          return None;
        }
        yuan := yuan * 10 + d;
      } else {
        fracDigits := fracDigits + 1;
        if fracDigits > 2 {
          return None;
        }
        frac := frac * 10 + d;
      }
      n := Extend(n, c);
      i := i + 1;
    }
    if !seenDigit {
      NoDigits(raw, n);
      return None;
    }
    Accepted(raw, n);
    if fracDigits == 1 {
      frac := frac * 10;
    }
    var fen := yuan * 100 + frac;
    r := Some(if negative then -fen else fen);
  }

  lemma SignLength(raw: string)
    requires raw != ""
    ensures SignOf(raw) == (if raw[0] == '+' then "+" else if raw[0] == '-' then "-" else "")
  {
  }

  lemma ScanStart(body: string, n: Numeral)
    requires n.whole == n.frac == "" && !n.dot
    ensures Scanned(body, 0, n) && Value("") == 0
  {
  }

  /** What the parser makes of a string, as a function. */
  ghost function Parsed(raw: string): Option<int> {
    if exists fen :: Denotes(raw, fen) then
      var fen :| Denotes(raw, fen);
      Some(fen)
    else None
  }

  lemma ParsedIs(raw: string, fen: int)
    requires Denotes(raw, fen)
    ensures Parsed(raw) == Some(fen)
  {
    DenotesUnique(raw, fen, Parsed(raw).value);
  }

  // ---- Printing ----

  /** Always two decimals, for every int64, the smallest one included. */
  function FenToYuanString(fen: int64): string {
    var negative := fen < 0;
    var abs: uint64 := if negative then (-(fen + 1)) as uint64 + 1 else fen as uint64;
    var yuan, rem := abs / 100, abs % 100;
    (if negative then "-" else "") + Digits(yuan as int) + "." + (if rem < 10 then "0" else "") + Digits(rem as int)
  }

  function Printed(fen: int64): Numeral {
    var abs := if fen < 0 then -(fen as int) else fen as int;
    Numeral(if fen < 0 then "-" else "", Digits(abs / 100), true,
            (if abs % 100 < 10 then "0" else "") + Digits(abs % 100))
  }

  lemma TwoDigits(r: nat)
    requires r < 100
    ensures var s := (if r < 10 then "0" else "") + Digits(r); |s| == 2 && AllDigits(s) && Value(s) == r
  {
    DigitsValue(r);
    DigitsLength(r, 1);
    DigitsLength(r, 0);
    if r < 10 {
      var s := "0" + Digits(r);
      assert s[..1] == "0" && "0"[..0] == "" && s[1] == Digits(r)[0];
      assert Digits(r)[..0] == "";
    }
  }

  lemma PrintedText(fen: int64)
    ensures Printed(fen).Valid() && Printed(fen).Text() == FenToYuanString(fen) && Printed(fen).Fen() == fen as int
    ensures Printed(fen).dot && |Printed(fen).frac| == 2 && Printed(fen).sign in {"", "-"}
  {
    hide Digits, Value;
    var abs := if fen < 0 then -(fen as int) else fen as int;
    DigitsValue(abs / 100);
    TwoDigits(abs % 100);
    assert Printed(fen).Text() == FenToYuanString(fen);
  }

  /** The round trip: a printed amount is read back as itself, exactly up to 1000000009.99 yuan; a
      larger one, down to the smallest int64, is read back as nothing. */
  lemma RoundTrip(fen: int64)
    ensures -MAX_FEN <= fen as int <= MAX_FEN ==> Denotes(FenToYuanString(fen), fen as int)
    ensures !(-MAX_FEN <= fen as int <= MAX_FEN) ==> forall g :: !Denotes(FenToYuanString(fen), g)
  {
    var n := Printed(fen);
    var raw := FenToYuanString(fen);
    PrintedText(fen);
    DigitsValue((if fen < 0 then -(fen as int) else fen as int) / 100);
    if -MAX_FEN <= fen as int <= MAX_FEN {
      DigitsLength((if fen < 0 then -(fen as int) else fen as int) / 100, 9);
      assert NumeralOf(n, raw);
    } else {
      forall m: Numeral ensures !NumeralOf(m, raw) {
        if NumeralOf(m, raw) { NumeralUnique(m, n); }
      }
    }
  }

  /** The same as one equation, for every int64. */
  lemma ParsePrinted(fen: int64)
    ensures Parsed(FenToYuanString(fen)) ==
            if -100000000999 <= fen as int <= 100000000999 then Some(fen as int) else None
  {
    hide FenToYuanString, Denotes;
    RoundTrip(fen);
    if -MAX_FEN <= fen as int <= MAX_FEN { ParsedIs(FenToYuanString(fen), fen as int); }
  }
}
