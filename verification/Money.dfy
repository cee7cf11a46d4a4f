/** USDC amounts: decimal strings and stroops, and the listing fee. */
module Money {
  import opened Types

  const USDC_DECIMALS := 7

  // ---------- Characters and digits ----------

  /** White space and line terminators as `String.prototype.trim` removes them. */
  predicate IsSpace(c: char) {
    || '\U{0009}' <= c <= '\U{000D}' || c == ' ' || c == '\U{00A0}' || c == '\U{1680}'
    || '\U{2000}' <= c <= '\U{200A}' || c == '\U{2028}' || c == '\U{2029}' || c == '\U{202F}'
    || c == '\U{205F}' || c == '\U{3000}' || c == '\U{FEFF}'
  }

  predicate IsDigit(c: char) { '0' <= c <= '9' }

  predicate Digits(s: string) { forall i :: 0 <= i < |s| ==> IsDigit(s[i]) }

  function DigitOf(c: char): (d: int)
    requires IsDigit(c)
    ensures 0 <= d <= 9
  {
    c as int - '0' as int
  }

  function CharOf(d: nat): (c: char)
    requires d <= 9
    ensures IsDigit(c) && DigitOf(c) == d
  {
    ('0' as int + d) as char
  }

  function Pow10(n: nat): (p: int)
    ensures p >= 1
  {
    if n == 0 then 1 else 10 * Pow10(n - 1)
  }

  /** The number a digit string denotes. */
  function Val(s: string): (v: int)
    requires Digits(s)
    ensures 0 <= v < Pow10(|s|)
  {
    if s == "" then 0 else 10 * Val(s[..|s| - 1]) + DigitOf(s[|s| - 1])
  }

  /** `BigInt.toString` of a non-negative number. */
  function Dec(n: nat): (s: string)
    ensures Digits(s) && s != ""
  {
    if n < 10 then [CharOf(n)] else Dec(n / 10) + [CharOf(n % 10)]
  }

  function Zeros(n: nat): (z: string)
    ensures |z| == n && Digits(z) && forall i :: 0 <= i < n ==> z[i] == '0'
  {
    seq(n, _ => '0')
  }

  // ---------- The two conversions ----------

  function TrimStart(s: string): string {
    if s != "" && IsSpace(s[0]) then TrimStart(s[1..]) else s
  }

  function TrimEnd(s: string): string {
    if s != "" && IsSpace(s[|s| - 1]) then TrimEnd(s[..|s| - 1]) else s
  }

  function Trim(s: string): string { TrimEnd(TrimStart(s)) }

  /** The number of leading digits. */
  function Lead(s: string): (n: nat)
    ensures n <= |s| && Digits(s[..n]) && (n < |s| ==> !IsDigit(s[n]))
  {
    if s == "" || !IsDigit(s[0]) then 0 else 1 + Lead(s[1..])
  }

  /** The accepted form, digits with an optional fraction, split at the point. */
  function Split(t: string): (r: Option<(string, string)>)
    ensures r.Some? ==> r.value.0 != "" && Digits(r.value.0) && Digits(r.value.1)
                        && t == if r.value.1 == "" then r.value.0 else r.value.0 + "." + r.value.1
  {
    var n := Lead(t);
    if n == 0 then None
    else if n == |t| then Some((t, ""))
    else if t[n] == '.' && n + 1 < |t| && Lead(t[n + 1..]) == |t| - n - 1 then Some((t[..n], t[n + 1..]))
    else None
  }

  function PadEnd(s: string, n: nat): string { if |s| < n then s + Zeros(n - |s|) else s }

  function PadStart(s: string, n: nat): string { if |s| < n then Zeros(n - |s|) + s else s }

  /** Drops leading zeros in front of another digit. */
  function StripStart(s: string): string {
    if |s| > 1 && s[0] == '0' && IsDigit(s[1]) then StripStart(s[1..]) else s
  }

  function StripEnd(s: string): string {
    if s != "" && s[|s| - 1] == '0' then StripEnd(s[..|s| - 1]) else s
  }

  /** `parseUsdcDecimalToStroops`; None where it throws. */
  function Parse(value: string): Option<int> {
    match Split(Trim(value))
    case None => None
    case Some((whole, frac)) =>
      if |frac| > USDC_DECIMALS then None
      else
        var units := StripStart(whole + PadEnd(frac, USDC_DECIMALS));
        StripStartKeeps(whole + PadEnd(frac, USDC_DECIMALS));
        Some(Val(units))
  }

  /** `formatUsdcStroopsToDecimal`. */
  function Format(stroops: int): string {
    var sign := if stroops < 0 then "-" else "";
    var abs := if stroops < 0 then -stroops else stroops;
    var s := PadStart(Dec(abs), USDC_DECIMALS + 1);
    var whole := s[..|s| - USDC_DECIMALS];
    var frac := StripEnd(s[|s| - USDC_DECIMALS..]);
    if frac == "" then sign + whole else sign + whole + "." + frac
  }

  // ---------- Values of digit strings ----------

  lemma {:induction false} StripStartKeeps(s: string)
    requires Digits(s)
    ensures Digits(StripStart(s)) && Val(StripStart(s)) == Val(s)
  {
    if |s| > 1 && s[0] == '0' && IsDigit(s[1]) {
      StripStartKeeps(s[1..]);
      LeadingZero(s);
    }
  }

  lemma {:induction false} LeadingZero(s: string)
    requires Digits(s) && |s| > 1 && s[0] == '0'
    ensures Val(s[1..]) == Val(s)
  {
    var n := |s| - 1;
    assert s[1..][..n - 1] == s[..n][1..];
    if n > 1 { LeadingZero(s[..n]); }
    else {
      assert s[..1] == "0" && s[1..][..0] == "";
      assert Val("0") == 0;
    }
  }

  lemma {:induction false} ValConcat(a: string, b: string)
    requires Digits(a) && Digits(b)
    ensures Digits(a + b) && Val(a + b) == Val(a) * Pow10(|b|) + Val(b)
  {
    if b == "" { assert a + b == a; }
    else {
      var n := |b| - 1;
      ValConcat(a, b[..n]);
      assert (a + b)[..|a + b| - 1] == a + b[..n];
      calc {
        10 * (Val(a) * Pow10(n) + Val(b[..n]));
        10 * (Val(a) * Pow10(n)) + 10 * Val(b[..n]);
        { TenTimes(Val(a), Pow10(n)); }
        Val(a) * Pow10(n + 1) + 10 * Val(b[..n]);
      }
    }
  }

  lemma TenTimes(a: int, p: int)
    ensures 10 * (a * p) == a * (10 * p)
  {
  }

  lemma {:induction false} ValZeros(n: nat)
    ensures Val(Zeros(n)) == 0
  {
    if n > 0 {
      ValZeros(n - 1);
      assert Zeros(n)[..n - 1] == Zeros(n - 1);
    }
  }

  lemma {:induction false} DecValue(n: nat)
    ensures Val(Dec(n)) == n
    ensures n > 0 ==> Dec(n)[0] != '0'
  {
    var s := Dec(n);
    if n < 10 {
      assert s[..0] == "";
    } else {
      DecValue(n / 10);
      assert s[..|s| - 1] == Dec(n / 10);
      assert s[0] == Dec(n / 10)[0];
    }
  }

  /** Two digit strings of one length with one value are the same string. */
  lemma {:induction false} SameLengthSameValue(a: string, b: string)
    requires Digits(a) && Digits(b) && |a| == |b| && Val(a) == Val(b)
    ensures a == b
  {
    if a != "" {
      var n := |a| - 1;
      SameLengthSameValue(a[..n], b[..n]);
      assert a == a[..n] + [a[n]] && b == b[..n] + [b[n]];
    }
  }

  /** The decimal numeral is the unique shortest non-empty digit string of its value. */
  lemma {:induction false} DecShortest(s: string)
    requires Digits(s) && s != ""
    ensures |Dec(Val(s))| <= |s|
    ensures |Dec(Val(s))| == |s| ==> s == Dec(Val(s))
  {
    DecValue(Val(s));
    if |s| == 1 { assert s[..0] == ""; }
    else {
      var n := |s| - 1;
      DecShortest(s[..n]);
      if Val(s) >= 10 { assert Val(s) / 10 == Val(s[..n]); }
    }
    if |Dec(Val(s))| == |s| { SameLengthSameValue(s, Dec(Val(s))); }
  }

  lemma {:induction false} StripEndZeros(f: string, n: nat)
    requires Digits(f)
    ensures StripEnd(f + Zeros(n)) == StripEnd(f)
  {
    if n == 0 { assert f + Zeros(0) == f; }
    else {
      var s := f + Zeros(n);
      assert s[..|s| - 1] == f + Zeros(n - 1);
      StripEndZeros(f, n - 1);
    }
  }

  lemma {:induction false} StripEndFacts(f: string)
    requires Digits(f)
    ensures Digits(StripEnd(f)) && |StripEnd(f)| <= |f|
    ensures f == StripEnd(f) + Zeros(|f| - |StripEnd(f)|)
  {
    if f != "" && f[|f| - 1] == '0' {
      StripEndFacts(f[..|f| - 1]);
      var r := StripEnd(f[..|f| - 1]);
      assert f == f[..|f| - 1] + "0";
      assert Zeros(|f| - |r|) == Zeros(|f| - 1 - |r|) + "0";
    } else {
      assert f == f + Zeros(0);
    }
  }

  // ---------- Whole and fraction ----------

  /** The padded numeral of an amount. */
  lemma Padded(n: nat) returns (s: string)
    ensures s == PadStart(Dec(n), USDC_DECIMALS + 1) && Digits(s) && Val(s) == n && |s| > USDC_DECIMALS
    ensures |s| > USDC_DECIMALS + 1 ==> s[0] != '0'
  {
    s := PadStart(Dec(n), USDC_DECIMALS + 1);
    DecValue(n);
    if |Dec(n)| < USDC_DECIMALS + 1 {
      var z := USDC_DECIMALS + 1 - |Dec(n)|;
      ValConcat(Zeros(z), Dec(n));
      ValZeros(z);
    }
  }

  /** Cut before the last seven digits, the numeral of an amount falls into whole and fraction. */
  lemma CutNumeral(whole: string, seven: string)
    requires Digits(whole) && Digits(seven) && |seven| == USDC_DECIMALS && whole != ""
    requires |whole| > 1 ==> whole[0] != '0'
    ensures whole == Dec(Val(whole + seven) / Pow10(USDC_DECIMALS))
    ensures Val(seven) == Val(whole + seven) % Pow10(USDC_DECIMALS)
  {
    ValConcat(whole, seven);
    var p := Pow10(USDC_DECIMALS);
    hide Pow10;
    Quotient(Val(whole), Val(seven), p);
    DecShortest(whole);
    if |whole| > 1 {
      NoLeadingZero(whole);
    } else {
      DecValue(Val(whole));
    }
  }

  lemma FormatOf(n: nat)
    ensures var s := PadStart(Dec(n), USDC_DECIMALS + 1);
            var whole, frac := s[..|s| - USDC_DECIMALS], StripEnd(s[|s| - USDC_DECIMALS..]);
            Format(n) == if frac == "" then whole else whole + "." + frac
  {
    hide StripEnd, Dec;
    var s := PadStart(Dec(n), USDC_DECIMALS + 1);
    hide PadStart;
    assert "" + s[..|s| - USDC_DECIMALS] == s[..|s| - USDC_DECIMALS];
  }

  /** The two parts of a formatted amount: the numeral of the whole USDC, and seven digits. */
  lemma Parts(n: nat) returns (whole: string, seven: string)
    ensures Digits(whole) && Digits(seven) && |seven| == USDC_DECIMALS
    ensures whole == Dec(n / Pow10(USDC_DECIMALS)) && Val(seven) == n % Pow10(USDC_DECIMALS)
    ensures Format(n) == if StripEnd(seven) == "" then whole else whole + "." + StripEnd(seven)
  {
    hide Format, StripEnd, PadStart, Dec, Val;
    var s := Padded(n);
    FormatOf(n);
    var k := |s| - USDC_DECIMALS;
    whole, seven := s[..k], s[k..];
    assert s == whole + seven;
    CutNumeral(whole, seven);
  }

  lemma Quotient(a: int, b: int, p: int)
    requires p > 0 && 0 <= b < p && a >= 0
    ensures (a * p + b) / p == a && (a * p + b) % p == b
  {
    var q, r := (a * p + b) / p, (a * p + b) % p;
    assert q * p + r == a * p + b;
    Spread(q, a, p);
    Spread(a, q, p);
    if q > a { Gap(q - a, p); } else if q < a { Gap(a - q, p); }
  }

  lemma Spread(x: int, y: int, p: int)
    ensures (x - y) * p == x * p - y * p
  {
  }

  lemma Gap(d: int, p: int)
    requires d >= 1 && p > 0
    ensures d * p >= p
  {
  }

  /** A numeral without a leading zero is the numeral of its value. */
  lemma {:induction false} NoLeadingZero(s: string)
    requires Digits(s) && s != "" && s[0] != '0'
    ensures s == Dec(Val(s))
  {
    var n := |s| - 1;
    if n == 0 { assert s[..0] == ""; }
    else {
      NoLeadingZero(s[..n]);
      Positive(s[..n]);
      assert s == s[..n] + [s[n]];
    }
  }

  lemma {:induction false} Positive(s: string)
    requires Digits(s) && s != "" && s[0] != '0'
    ensures Val(s) > 0
  {
    if |s| > 1 { Positive(s[..|s| - 1]); } else { assert s[..0] == ""; }
  }

  /** What an accepted string says: whole and fraction determine the amount. */
  lemma ParsedParts(whole: string, frac: string)
    requires Digits(whole) && whole != "" && Digits(frac) && |frac| <= USDC_DECIMALS
    ensures var seven := PadEnd(frac, USDC_DECIMALS);
            && Digits(seven) && |seven| == USDC_DECIMALS && StripEnd(seven) == StripEnd(frac)
            && Digits(whole + seven) && Digits(StripStart(whole + seven))
            && Val(StripStart(whole + seven)) == Val(whole + seven) == Val(whole) * Pow10(USDC_DECIMALS) + Val(seven)
            && Val(whole + seven) / Pow10(USDC_DECIMALS) == Val(whole) && Val(whole + seven) % Pow10(USDC_DECIMALS) == Val(seven)
  {
    var seven := PadEnd(frac, USDC_DECIMALS);
    if |frac| < USDC_DECIMALS { StripEndZeros(frac, USDC_DECIMALS - |frac|); }
    ValConcat(whole, seven);
    StripStartKeeps(whole + seven);
    Quotient(Val(whole), Val(seven), Pow10(USDC_DECIMALS));
  }

  lemma {:induction false} LeadAll(w: string, rest: string)
    requires Digits(w) && (rest == "" || !IsDigit(rest[0]))
    ensures Lead(w + rest) == |w|
  {
    if w != "" {
      assert (w + rest)[1..] == w[1..] + rest;
      LeadAll(w[1..], rest);
    } else { assert w + rest == rest; }
  }

  lemma SplitOf(w: string, f: string)
    requires Digits(w) && w != "" && Digits(f)
    ensures Split(if f == "" then w else w + "." + f) == Some((w, f))
  {
    if f == "" {
      LeadAll(w, "");
      assert w + "" == w;
    } else {
      var t := w + "." + f;
      assert t == w + ("." + f);
      LeadAll(w, "." + f);
      LeadAll(f, "");
      assert f + "" == f && t[|w| + 1..] == f && t[..|w|] == w;
    }
  }

  lemma TrimNothing(t: string)
    requires t != "" && IsDigit(t[0]) && IsDigit(t[|t| - 1])
    ensures Trim(t) == t
  {
  }

  lemma {:induction false} TrimShorter(s: string)
    ensures |Trim(s)| <= |s| && (|Trim(s)| == |s| ==> Trim(s) == s)
  {
    TrimStartShorter(s);
    TrimEndShorter(TrimStart(s));
  }

  lemma {:induction false} TrimStartShorter(s: string)
    ensures |TrimStart(s)| <= |s| && (|TrimStart(s)| == |s| ==> TrimStart(s) == s)
  {
    if s != "" && IsSpace(s[0]) { TrimStartShorter(s[1..]); }
  }

  lemma {:induction false} TrimEndShorter(s: string)
    ensures |TrimEnd(s)| <= |s| && (|TrimEnd(s)| == |s| ==> TrimEnd(s) == s)
  {
    if s != "" && IsSpace(s[|s| - 1]) { TrimEndShorter(s[..|s| - 1]); }
  }

  // ---------- Theorems ----------

  /** What an accepted, trimmed string parses to. */
  lemma ParseOf(w: string, f: string)
    requires Digits(w) && w != "" && Digits(f) && |f| <= USDC_DECIMALS
    ensures Digits(PadEnd(f, USDC_DECIMALS))
    ensures Parse(if f == "" then w else w + "." + f) == Some(Val(w) * Pow10(USDC_DECIMALS) + Val(PadEnd(f, USDC_DECIMALS)))
  {
    hide Trim, Split, PadEnd, StripStart, Val, Zeros;
    TrimNothing(if f == "" then w else w + "." + f);
    SplitOf(w, f);
    ParsedParts(w, f);
  }

  /** `t` is written as whole and fraction of at most seven digits, and denotes `n` ten-millionths. */
  predicate Denotes(t: string, w: string, f: string, n: int) {
    && Digits(w) && w != "" && Digits(f) && |f| <= 7 && t == (if f == "" then w else w + "." + f)
    && n == 10000000 * Val(w) + Val(f) * Pow10(7 - |f|)
  }

  lemma SevenDigits(f: string)
    requires Digits(f) && |f| <= 7
    ensures Digits(PadEnd(f, 7)) && Val(PadEnd(f, 7)) == Val(f) * Pow10(7 - |f|)
  {
    hide Val, Pow10;
    ValConcat(f, Zeros(7 - |f|));
    ValZeros(7 - |f|);
    if |f| == 7 { assert f + Zeros(0) == f; }
  }

  lemma SevenPlaces()
    ensures Pow10(7) == 10000000
  {
  }

  lemma ParseSplit(s: string, w: string, f: string)
    requires Split(Trim(s)) == Some((w, f)) && |f| <= 7
    ensures Parse(s) == Some(10000000 * Val(w) + Val(f) * Pow10(7 - |f|))
  {
    hide Trim, Split, PadEnd, StripStart, StripEnd, Val, Zeros, Pow10;
    SevenPlaces();
    ParsedParts(w, f);
    SevenDigits(f);
  }

  /** Exactly which strings are accepted, and what they are worth: digits, and after a point one to seven more, denote that
      many ten-millionths; everything else is refused. */
  lemma ParseExactly(s: string, n: int)
    ensures Parse(s) == Some(n) <==> exists w, f :: Denotes(Trim(s), w, f, n)
  {
    if Parse(s) == Some(n) {
      var (w, f) := Split(Trim(s)).value;
      ParseSplit(s, w, f);
      assert Denotes(Trim(s), w, f, n);
    }
    if w, f :| Denotes(Trim(s), w, f, n) {
      SplitOf(w, f);
      ParseSplit(s, w, f);
    }
  }

  /** Formatting then parsing gives every non-negative amount back. */
  lemma ParseFormat(n: nat)
    ensures Parse(Format(n)) == Some(n)
  {
    hide Parse, Format, StripEnd, Dec, Val;
    var whole, seven := Parts(n);
    var frac := StripEnd(seven);
    StripEndFacts(seven);
    ParseOf(whole, frac);
    assert seven == PadEnd(frac, USDC_DECIMALS) by { assert frac + Zeros(0) == frac; }
    DecValue(n / Pow10(USDC_DECIMALS));
    Recompose(n, Pow10(USDC_DECIMALS));
  }

  lemma Recompose(n: int, p: int)
    requires p > 0
    ensures n / p * p + n % p == n
  {
  }

  /** A negative amount formats to a string that is refused. */
  lemma NegativeRefused(n: int)
    requires n < 0
    ensures Parse(Format(n)).None?
  {
    var t := Format(n);
    assert t[0] == '-';
    assert TrimStart(t) == t;
    TrimEndFirst(t);
  }

  lemma {:induction false} TrimEndFirst(t: string)
    requires t != "" && !IsSpace(t[0])
    ensures TrimEnd(t) != "" && TrimEnd(t)[0] == t[0]
  {
    if IsSpace(t[|t| - 1]) { TrimEndFirst(t[..|t| - 1]); }
  }

  /** Formatting a parsed amount gives the unique shortest accepted string for it. */
  lemma FormatIsShortest(s: string)
    requires Parse(s).Some?
    ensures var n := Parse(s).value;
            && Parse(Format(n)) == Some(n)
            && |Format(n)| <= |s| && (|Format(n)| == |s| ==> s == Format(n))
  {
    var n := Parse(s).value;
    ParseFormat(n);
    var (w, f) := Split(Trim(s)).value;
    ParsedParts(w, f);
    var whole, seven := Parts(n);
    SameLengthSameValue(PadEnd(f, USDC_DECIMALS), seven);
    StripEndFacts(f);
    DecShortest(w);
    TrimShorter(s);
    if |StripEnd(f)| == |f| { assert StripEnd(f) + Zeros(0) == StripEnd(f); }
  }

  /** Two accepted strings denote the same amount exactly when they format alike. */
  lemma SameAmount(s: string, t: string)
    requires Parse(s).Some? && Parse(t).Some?
    ensures Parse(s) == Parse(t) <==> Format(Parse(s).value) == Format(Parse(t).value)
  {
    ParseFormat(Parse(s).value);
    ParseFormat(Parse(t).value);
  }

  lemma OneDigit(c: char)
    requires IsDigit(c)
    ensures Val([c]) == DigitOf(c)
  {
    assert [c][..0] == "";
  }

  /** One USDC is ten million stroops, and is written `1`. */
  lemma OneUsdc()
    ensures Parse("1") == Some(10000000) && Format(10000000) == "1"
  {
    OneDigit('1');
    TrimNothing("1");
    SplitOf("1", "");
    ParseSplit("1", "1", "");
    hide Parse, Format, Val, Split, Trim;
    FormatIsShortest("1");
    Nonempty(Format(10000000));
  }

  lemma Nonempty(s: string)
    requires Parse(s).Some?
    ensures s != ""
  {
  }

  // ---------- Listing fee ----------

  /** `calculateListingFeeStroops`, on the non-negative reserve prices that parsing yields. */
  function ListingFee(reserve: nat): (fee: nat)
    ensures 1000 * fee - 500 <= 5 * reserve < 1000 * fee + 500
  {
    (reserve * 5 + 500) / 1000
  }

  /** The fee is 0.5 % of the reserve price rounded to the nearest stroop, and the string built for the payment gate
      parses back to exactly the stroops the local path charges. */
  lemma FeeStringAgrees(price: string)
    requires Parse(price).Some?
    ensures var fee := ListingFee(Parse(price).value);
            Parse(Format(fee)) == Some(fee)
  {
    ParseFormat(ListingFee(Parse(price).value));
  }
}
