/** Display formatting (`BearCart/backend/utils.py`): the `,` thousands
    separator and the fixed number of decimals of Python's format
    specifiers, over fixed-point values (an integer `x` with `decimals`
    digits stands for x / 10^decimals), and `get_date_range`. */
module Formatting {
  import opened Seqs
  import opened Text

  function Pow10(n: nat): (p: nat)
    ensures p >= 1
  {
    if n == 0 then 1 else 10 * Pow10(n - 1)
  }

  predicate AllDigits(s: string) {
    forall i :: 0 <= i < |s| ==> IsDigit(s[i])
  }

  function Zeros(n: nat): (z: string)
    ensures |z| == n
    ensures forall i :: 0 <= i < n ==> z[i] == '0'
  {
    if n == 0 then "" else "0" + Zeros(n - 1)
  }

  /** Left-pads a digit string with zeros to `width` characters. */
  function PadZeros(s: string, width: nat): (r: string)
    ensures |s| <= width ==> |r| == width
    ensures AllDigits(s) ==> AllDigits(r)
  {
    if |s| < width then Zeros(width - |s|) + s else s
  }

  /** The `,` option: a comma before every group of three digits counted
      from the right. */
  function Group(d: string): (g: string)
    decreases |d|
  {
    if |d| <= 3 then d else Group(d[..|d| - 3]) + "," + d[|d| - 3..]
  }

  /** The string with its commas deleted. */
  function StripCommas(s: string): (r: string) {
    if s == [] then []
    else (if s[0] == ',' then [] else [s[0]]) + StripCommas(s[1..])
  }

  /** `f"{x:{,}.{decimals}f}"` for the fixed-point value x / 10^decimals:
      the sign, the integer part (comma-grouped when `grouped`), and when
      `decimals > 0` a point and exactly `decimals` fraction digits. */
  function FormatFixed(x: int, decimals: nat, grouped: bool): (r: string)
  {
    SignPart(x) + IntPart(WholeDigits(x, decimals), grouped) + FracPart(Magnitude(x), decimals)
  }

  /** The digits of the integer part of |x| / 10^decimals. */
  function WholeDigits(x: int, decimals: nat): (d: string)
    ensures |d| >= 1 && AllDigits(d)
    ensures DigitsValue(d) == Magnitude(x) / Pow10(decimals)
  {
    var q := Quotient(Magnitude(x), Pow10(decimals));
    NatToStringRoundTrip(q);
    NatToString(q)
  }

  /** `m // p` for a positive `p`. */
  function Quotient(m: nat, p: nat): (q: nat)
    requires p >= 1
    ensures q * p <= m < (q + 1) * p
  {
    m / p
  }

  function Magnitude(x: int): nat {
    if x < 0 then -x else x
  }

  /** The minus sign, for a negative value only. */
  function SignPart(x: int): (s: string)
    ensures x < 0 ==> s == "-"
    ensures x >= 0 ==> s == ""
  {
    if x < 0 then "-" else ""
  }

  /** The integer digits, comma-grouped when `grouped`. */
  function IntPart(whole: string, grouped: bool): (p: string)
    requires |whole| >= 1 && AllDigits(whole)
    ensures |p| >= 1 && IsDigit(p[0])
    ensures '.' !in p
    ensures StripCommas(p) == whole
  {
    if grouped then
      GroupLength(whole);
      GroupFirst(whole);
      GroupNoPoint(whole);
      GroupRoundTrip(whole);
      Group(whole)
    else
      NoCommas(whole);
      assert forall c :: c in whole ==> IsDigit(c);
      whole
  }

  /** The point and the `decimals` fraction digits of m / 10^decimals. */
  function FracPart(m: nat, decimals: nat): (f: string)
    ensures decimals == 0 ==> f == ""
    ensures decimals > 0 ==>
              |f| == decimals + 1 && f[0] == '.' && AllDigits(f[1..])
              && DigitsValue(f[1..]) == m % Pow10(decimals)
  {
    if decimals == 0 then ""
    else
      var f := "." + FractionDigits(m, decimals);
      assert f[1..] == FractionDigits(m, decimals);
      f
  }

  /** The `decimals` digits after the point of m / 10^decimals. */
  function FractionDigits(m: nat, decimals: nat): (f: string)
    requires decimals > 0
    ensures |f| == decimals
    ensures AllDigits(f)
    ensures DigitsValue(f) == m % Pow10(decimals)
  {
    var n := m % Pow10(decimals);
    NatToStringLength(n, decimals);
    NatToStringRoundTrip(n);
    PadZerosValue(NatToString(n), decimals);
    PadZeros(NatToString(n), decimals)
  }

  /** `format_currency`: `f"${value:,.2f}"`, the value in cents. */
  function FormatCurrency(cents: int): (r: string)
    ensures |r| >= 5 && r[0] == '$'
    ensures cents < 0 <==> r[1] == '-'
    ensures r[|r| - 3] == '.' && IsDigit(r[|r| - 2]) && IsDigit(r[|r| - 1])
  {
    var r := "$" + FormatFixed(cents, 2, true);
    FormatFixedShape(cents, 2, true);
    FormatFixedSign(cents, 2, true);
    r
  }

  /** The text of `format_currency` denotes the amount: after "$" and the
      sign come the whole dollars, comma-grouped, then a point and the two
      digits of the remaining cents. */
  lemma FormatCurrencyValue(cents: int, r: string)
    requires r == FormatCurrency(cents)
    ensures var start := if cents < 0 then 2 else 1;
            && start <= |r| - 3
            && r[..start] == (if cents < 0 then "$-" else "$")
            && StripCommas(r[start..|r| - 3]) == NatToString(Magnitude(cents) / 100)
            && r[|r| - 3] == '.'
            && AllDigits(r[|r| - 2..]) && DigitsValue(r[|r| - 2..]) == Magnitude(cents) % 100
  {
    var m := Magnitude(cents);
    var whole := NatToString(m / 100);
    var ip := IntPart(whole, true);
    var f := FracPart(m, 2);
    var head := "$" + SignPart(cents);
    CurrencyParts(cents);
    SliceOfParts(head, ip, f);
  }

  /** `format_currency` is "$", the sign, the grouped dollars and the cents. */
  lemma CurrencyParts(cents: int)
    ensures Pow10(2) == 100
    ensures FormatCurrency(cents)
            == "$" + SignPart(cents) + IntPart(NatToString(Magnitude(cents) / 100), true) + FracPart(Magnitude(cents), 2)
  {
    var m := Magnitude(cents);
    assert Pow10(2) == 100 by {
      assert Pow10(0) == 1;
      assert Pow10(1) == 10;
    }
    assert Quotient(m, 100) == m / 100;
    assert WholeDigits(cents, 2) == NatToString(m / 100);
    assert FormatFixed(cents, 2, true) == SignPart(cents) + IntPart(NatToString(m / 100), true) + FracPart(m, 2);
  }

  lemma SliceOfParts(head: string, ip: string, f: string)
    requires |f| == 3
    ensures var r := head + ip + f;
            && r[..|head|] == head && r[|head|..|r| - 3] == ip && r[|r| - 3] == f[0] && r[|r| - 2..] == f[1..]
  {
  }

  /** `format_percentage`: `f"{value:.{decimals}f}%"`. */
  function FormatPercentage(x: int, decimals: nat): (r: string)
    ensures |r| >= 2 && r[|r| - 1] == '%'
    ensures decimals > 0 ==>
              |r| >= decimals + 3 && r[|r| - 2 - decimals] == '.'
              && forall i :: |r| - 1 - decimals <= i < |r| - 1 ==> IsDigit(r[i])
    ensures '.' in r <==> decimals > 0
  {
    FormatFixedShape(x, decimals, false);
    PercentSignShape(FormatFixed(x, decimals, false), decimals);
    FormatFixed(x, decimals, false) + "%"
  }

  /** The text of `format_percentage` denotes the value x / 10^decimals:
      the sign, the whole part's digits, for decimals > 0 a point and the
      digits of the remainder, and a final "%". */
  lemma FormatPercentageValue(x: int, decimals: nat, r: string)
    requires r == FormatPercentage(x, decimals)
    ensures var start := if x < 0 then 1 else 0;
            var point := |r| - 1 - (if decimals > 0 then decimals + 1 else 0);
            && start < point
            && r[..start] == (if x < 0 then "-" else "")
            && AllDigits(r[start..point]) && DigitsValue(r[start..point]) == Magnitude(x) / Pow10(decimals)
            && (decimals > 0 ==>
                  r[point] == '.' && AllDigits(r[point + 1..|r| - 1])
                  && DigitsValue(r[point + 1..|r| - 1]) == Magnitude(x) % Pow10(decimals))
            && r[|r| - 1] == '%'
  {
    var w := WholeDigits(x, decimals);
    var f := FracPart(Magnitude(x), decimals);
    assert IntPart(w, false) == w;
    assert r == SignPart(x) + w + f + "%";
    PercentLayout(SignPart(x), w, f, decimals, r);
  }

  /** Where the sign, the whole digits, the point and fraction, and the "%"
      sit in `head + w + f + "%"`. */
  lemma PercentLayout(head: string, w: string, f: string, decimals: nat, r: string)
    requires r == head + w + f + "%"
    requires |f| == if decimals > 0 then decimals + 1 else 0
    ensures var point := |r| - 1 - |f|;
            && point == |head| + |w|
            && r[..|head|] == head && r[|head|..point] == w && r[|r| - 1] == '%'
            && (decimals > 0 ==> r[point] == f[0] && r[point + 1..|r| - 1] == f[1..])
  {
    var point := |head| + |w|;
    assert r[..|head|] == head;
    assert r[|head|..point] == w;
    assert r[point..|r| - 1] == f;
    if decimals > 0 {
      assert r[point + 1..|r| - 1] == f[1..];
    }
  }

  /** Appending `%` shifts the point and the fraction digits by one. */
  lemma PercentSignShape(f: string, decimals: nat)
    requires |f| >= 1
    requires decimals > 0 ==>
               |f| >= decimals + 2 && f[|f| - 1 - decimals] == '.'
               && forall i :: |f| - decimals <= i < |f| ==> IsDigit(f[i])
    requires '.' in f <==> decimals > 0
    ensures var r := f + "%";
            && |r| >= 2 && r[|r| - 1] == '%'
            && (decimals > 0 ==>
                  |r| >= decimals + 3 && r[|r| - 2 - decimals] == '.'
                  && forall i :: |r| - 1 - decimals <= i < |r| - 1 ==> IsDigit(r[i]))
            && ('.' in r <==> decimals > 0)
  {
    var r := f + "%";
    assert forall i :: 0 <= i < |f| ==> r[i] == f[i];
    assert '.' in r <==> '.' in f;
  }

  /** `format_number`: `f"{value:,.{decimals}f}"`. */
  function FormatNumber(x: int, decimals: nat): (r: string)
    ensures decimals > 0 ==>
              |r| >= decimals + 2 && r[|r| - 1 - decimals] == '.'
              && forall i :: |r| - decimals <= i < |r| ==> IsDigit(r[i])
    ensures '.' in r <==> decimals > 0
  {
    FormatFixedShape(x, decimals, true);
    FormatFixed(x, decimals, true)
  }

  // ---------------------------------------------------------------------
  // Laws

  lemma {:induction false} NatToStringLength(n: nat, d: nat)
    requires d >= 1 && n < Pow10(d)
    ensures |NatToString(n)| <= d
  {
    if n >= 10 {
      assert d >= 2;
      NatToStringLength(n / 10, d - 1);
    }
  }

  lemma {:induction false} DigitsValueOfZeros(z: string, s: string)
    requires forall i :: 0 <= i < |z| ==> z[i] == '0'
    requires AllDigits(s)
    ensures AllDigits(z + s)
    ensures DigitsValue(z + s) == DigitsValue(s)
  {
    if s == [] {
      assert z + s == z;
      ZerosValue(z);
    } else {
      var t := s[..|s| - 1];
      assert (z + s)[..|z + s| - 1] == z + t;
      assert AllDigits(t);
      DigitsValueOfZeros(z, t);
    }
  }

  lemma {:induction false} ZerosValue(z: string)
    requires forall i :: 0 <= i < |z| ==> z[i] == '0'
    ensures AllDigits(z) && DigitsValue(z) == 0
  {
    if z != [] {
      ZerosValue(z[..|z| - 1]);
    }
  }

  /** Zero padding does not change the number a digit string denotes. */
  lemma PadZerosValue(s: string, width: nat)
    requires AllDigits(s)
    ensures DigitsValue(PadZeros(s, width)) == DigitsValue(s)
  {
    if |s| < width {
      DigitsValueOfZeros(Zeros(width - |s|), s);
    }
  }

  /** Grouping of `n` digits adds one comma per full group of three. */
  lemma {:induction false} GroupLength(d: string)
    requires |d| >= 1
    ensures |Group(d)| == |d| + (|d| - 1) / 3
  {
    if |d| > 3 {
      GroupLength(d[..|d| - 3]);
    }
  }

  /** The commas of `s` sit exactly every fourth character counted from
      the right. */
  ghost predicate CommasEvery4(s: string) {
    forall i :: 0 <= i < |s| ==> (s[i] == ',' <==> (|s| - i) % 4 == 0)
  }

  /** The commas of a grouped digit string sit exactly every fourth
      character counted from the right. */
  lemma {:induction false} GroupCommas(d: string)
    requires AllDigits(d)
    ensures CommasEvery4(Group(d))
    decreases |d|
  {
    if |d| > 3 {
      var p := d[..|d| - 3];
      var t := d[|d| - 3..];
      assert AllDigits(p) && AllDigits(t);
      GroupCommas(p);
      assert Group(d) == Group(p) + "," + t;
      CommasStep(Group(p), t, Group(d));
    } else {
      assert forall i :: 0 <= i < |d| ==> IsDigit(d[i]) && |d| - i < 4;
    }
  }

  lemma CommasStep(gp: string, t: string, g: string)
    requires g == gp + "," + t && |t| == 3 && AllDigits(t)
    requires CommasEvery4(gp)
    ensures CommasEvery4(g)
  {
    forall i | 0 <= i < |g| ensures g[i] == ',' <==> (|g| - i) % 4 == 0 {
      if i < |gp| {
        assert g[i] == gp[i];
        assert (|g| - i) % 4 == (|gp| - i) % 4;
      } else if i > |gp| {
        assert g[i] == t[i - |gp| - 1];
      }
    }
  }

  /** Deleting the commas of a grouped digit string gives back the digits. */
  lemma {:induction false} GroupRoundTrip(d: string)
    requires AllDigits(d)
    ensures StripCommas(Group(d)) == d
    decreases |d|
  {
    if |d| > 3 {
      var p := d[..|d| - 3];
      var t := d[|d| - 3..];
      assert AllDigits(p) && AllDigits(t);
      GroupRoundTrip(p);
      var gp := Group(p);
      var g := gp + ("," + t);
      assert Group(d) == g;
      StripStep(gp, p, t);
      assert d == p + t;
      assert StripCommas(Group(d)) == StripCommas(g) == d;
    } else {
      NoCommas(d);
    }
  }

  lemma StripStep(gp: string, p: string, t: string)
    requires StripCommas(gp) == p && AllDigits(t)
    ensures StripCommas(gp + ("," + t)) == p + t
  {
    StripCommasConcat(gp, "," + t);
    assert StripCommas("," + t) == StripCommas(t) by {
      assert ("," + t)[1..] == t;
    }
    NoCommas(t);
  }

  lemma {:induction false} StripCommasConcat(a: string, b: string)
    ensures StripCommas(a + b) == StripCommas(a) + StripCommas(b)
  {
    if a != [] {
      assert (a + b)[1..] == a[1..] + b;
      StripCommasConcat(a[1..], b);
    } else {
      assert a + b == b;
    }
  }

  lemma {:induction false} NoCommas(s: string)
    requires AllDigits(s)
    ensures StripCommas(s) == s
  {
    if s != [] {
      assert AllDigits(s[1..]);
      NoCommas(s[1..]);
    }
  }

  /** Deleting the commas of `format_number(x)` with no decimals gives
      `str(x)`, and the commas sit every fourth character from the right. */
  lemma FormatNumberRoundTrip(x: int)
    ensures StripCommas(FormatNumber(x, 0)) == IntToString(x)
    ensures CommasEvery4(if x < 0 then FormatNumber(x, 0)[1..] else FormatNumber(x, 0))
  {
    var whole := NatToString(Magnitude(x));
    FormatNumberWhole(x);
    assert AllDigits(whole);
    GroupCommas(whole);
    GroupRoundTrip(whole);
    var r := FormatNumber(x, 0);
    if x < 0 {
      assert r == "-" + Group(whole);
      StripCommasConcat("-", Group(whole));
      assert StripCommas("-") == "-";
      assert r[1..] == Group(whole);
    } else {
      assert r == Group(whole);
    }
  }

  /** With no decimals, `format_number` is the sign and the grouped digits. */
  lemma FormatNumberWhole(x: int)
    ensures AllDigits(NatToString(Magnitude(x)))
    ensures FormatNumber(x, 0) == SignPart(x) + Group(NatToString(Magnitude(x)))
  {
    var m := Magnitude(x);
    assert m / Pow10(0) == m;
    var whole := NatToString(m);
    assert WholeDigits(x, 0) == whole;
    assert IntPart(whole, true) == Group(whole);
    assert FormatFixed(x, 0, true) == SignPart(x) + Group(whole) + "";
  }

  /** Where the point and the fraction digits of a formatted value sit. */
  lemma FormatFixedShape(x: int, decimals: nat, grouped: bool)
    ensures var r := FormatFixed(x, decimals, grouped);
            && |r| >= 1
            && (decimals > 0 ==>
                  |r| >= decimals + 2 && r[|r| - 1 - decimals] == '.'
                  && forall i :: |r| - decimals <= i < |r| ==> IsDigit(r[i]))
            && ('.' in r <==> decimals > 0)
  {
    var m := Magnitude(x);
    var sg := SignPart(x);
    var ip := IntPart(WholeDigits(x, decimals), grouped);
    var f := FracPart(m, decimals);
    var r := FormatFixed(x, decimals, grouped);
    assert r == sg + ip + f;
    assert '.' !in sg + ip;
    if decimals > 0 {
      var n := |sg + ip|;
      assert r[n] == f[0];
      forall i | |r| - decimals <= i < |r| ensures IsDigit(r[i]) {
        assert r[i] == f[1..][i - n - 1];
      }
    } else {
      assert r == sg + ip;
    }
  }

  /** The value is negative exactly when the text starts with "-". */
  lemma FormatFixedSign(x: int, decimals: nat, grouped: bool)
    ensures var r := FormatFixed(x, decimals, grouped);
            |r| >= 1 && (x < 0 <==> r[0] == '-')
  {
    var m := Magnitude(x);
    var ip := IntPart(WholeDigits(x, decimals), grouped);
    var f := FracPart(m, decimals);
    assert FormatFixed(x, decimals, grouped) == SignPart(x) + ip + f;
    SignOfParts(SignPart(x), ip, f, x < 0);
  }

  lemma SignOfParts(sg: string, ip: string, f: string, neg: bool)
    requires neg ==> sg == "-"
    requires !neg ==> sg == ""
    requires |ip| >= 1 && IsDigit(ip[0])
    ensures |sg + ip + f| >= 1 && (neg <==> (sg + ip + f)[0] == '-')
  {
    if !neg {
      assert (sg + ip + f)[0] == ip[0];
    }
  }

  lemma {:induction false} GroupNoPoint(d: string)
    requires AllDigits(d)
    ensures '.' !in Group(d)
    decreases |d|
  {
    if |d| > 3 {
      assert AllDigits(d[..|d| - 3]);
      GroupNoPoint(d[..|d| - 3]);
      assert forall c :: c in d[|d| - 3..] ==> IsDigit(c);
    } else {
      assert forall c :: c in d ==> IsDigit(c);
    }
  }

  lemma {:induction false} GroupFirst(d: string)
    requires |d| >= 1
    ensures Group(d)[0] == d[0]
    decreases |d|
  {
    if |d| > 3 {
      GroupLength(d[..|d| - 3]);
      GroupFirst(d[..|d| - 3]);
    }
  }

  /** The text of `format_number` with decimals denotes the value: the
      fraction digits are the value's remainder modulo 10^decimals. */
  lemma FormatFixedFraction(x: int, decimals: nat, grouped: bool)
    requires decimals > 0
    ensures var r := FormatFixed(x, decimals, grouped);
            |r| >= decimals
            && DigitsValue(r[|r| - decimals..]) == Magnitude(x) % Pow10(decimals)
  {
    var m := Magnitude(x);
    var f := FracPart(m, decimals);
    var head := SignPart(x) + IntPart(WholeDigits(x, decimals), grouped);
    assert FormatFixed(x, decimals, grouped) == head + f;
    SuffixOfParts(head, f, decimals);
  }

  lemma SuffixOfParts(head: string, f: string, decimals: nat)
    requires |f| == decimals + 1
    ensures |head + f| >= decimals && (head + f)[|head + f| - decimals..] == f[1..]
  {
  }

  // ---------------------------------------------------------------------
  // get_date_range

  /** A cell of a date column: text still to be parsed, a parsed timestamp,
      or missing (NaT). */
  datatype DateCell = Text(text: string) | Stamp(t: int) | Missing

  /** What `get_date_range` returns: `(min, max)`; NaT for both when the
      column holds no date; `pd.to_datetime` raising on text it cannot
      parse. */
  datatype DateRange = Range(lo: int, hi: int) | NoDates | ParseError

  /** `pd.to_datetime` on a whole column: None when some text cell does not
      parse (the call raises). */
  function ParseColumn(cells: seq<DateCell>, parse: string -> Option<int>): (r: Option<seq<DateCell>>)
    ensures r.Some? ==> |r.value| == |cells|
    ensures r.Some? ==> forall i :: 0 <= i < |cells| ==> !r.value[i].Text?
    ensures r.Some? ==> forall i :: 0 <= i < |cells| ==>
              (cells[i].Text? ==>
                 parse(cells[i].text).Some? && r.value[i] == Stamp(parse(cells[i].text).value))
              && (!cells[i].Text? ==> r.value[i] == cells[i])
    ensures r.None? <==> exists i :: 0 <= i < |cells| && cells[i].Text? && parse(cells[i].text).None?
  {
    if cells == [] then Some([])
    else
      var rest := ParseColumn(cells[1..], parse);
      var head := match cells[0]
                  case Text(s) => (match parse(s) case Some(t) => Some(Stamp(t)) case None => None)
                  case other => Some(other);
      assert forall i :: 1 <= i < |cells| ==> cells[1..][i - 1] == cells[i];
      if head.None? || rest.None? then
        assert head.None? ==> cells[0].Text? && parse(cells[0].text).None?;
        assert rest.None? ==> exists i :: 1 <= i < |cells| && cells[i].Text? && parse(cells[i].text).None? by {
          if rest.None? {
            var j :| 0 <= j < |cells[1..]| && cells[1..][j].Text? && parse(cells[1..][j].text).None?;
            assert cells[j + 1] == cells[1..][j];
          }
        }
        None
      else
        var r := [head.value] + rest.value;
        assert forall i :: 1 <= i < |cells| ==> r[i] == rest.value[i - 1];
        Some(r)
  }

  function StampOf(c: DateCell): Option<int> {
    if c.Stamp? then Some(c.t) else None
  }

  /** The earliest and latest timestamp of a column, skipping NaT. */
  function Extent(cells: seq<DateCell>): (r: DateRange)
    ensures r.Range? || r.NoDates?
    ensures r.NoDates? <==> forall i :: 0 <= i < |cells| ==> !cells[i].Stamp?
    ensures r.Range? ==>
              r.lo <= r.hi
              && (exists i :: 0 <= i < |cells| && cells[i] == Stamp(r.lo))
              && (exists i :: 0 <= i < |cells| && cells[i] == Stamp(r.hi))
              && forall i :: 0 <= i < |cells| && cells[i].Stamp? ==> r.lo <= cells[i].t <= r.hi
  {
    if cells == [] then NoDates
    else
      var rest := Extent(cells[1..]);
      assert forall i :: 1 <= i < |cells| ==> cells[1..][i - 1] == cells[i];
      match cells[0]
      case Stamp(t) =>
        (match rest
         case Range(lo, hi) =>
           var r := Range(if t < lo then t else lo, if t > hi then t else hi);
           assert exists i :: 0 <= i < |cells| && cells[i] == Stamp(r.lo) by {
             if t >= lo {
               var i :| 0 <= i < |cells[1..]| && cells[1..][i] == Stamp(lo);
               assert cells[i + 1] == Stamp(lo);
             } else {
               assert cells[0] == Stamp(r.lo);
             }
           }
           assert exists i :: 0 <= i < |cells| && cells[i] == Stamp(r.hi) by {
             if t <= hi {
               var i :| 0 <= i < |cells[1..]| && cells[1..][i] == Stamp(hi);
               assert cells[i + 1] == Stamp(hi);
             } else {
               assert cells[0] == Stamp(r.hi);
             }
           }
           r
         case _ =>
           Range(t, t))
      case _ =>
        assert rest.Range? ==> exists i :: 0 <= i < |cells| && cells[i] == Stamp(rest.lo) by {
          if rest.Range? {
            var i :| 0 <= i < |cells[1..]| && cells[1..][i] == Stamp(rest.lo);
            assert cells[i + 1] == Stamp(rest.lo);
          }
        }
        assert rest.Range? ==> exists i :: 0 <= i < |cells| && cells[i] == Stamp(rest.hi) by {
          if rest.Range? {
            var i :| 0 <= i < |cells[1..]| && cells[1..][i] == Stamp(rest.hi);
            assert cells[i + 1] == Stamp(rest.hi);
          }
        }
        rest
  }

  /** The caller's data frame, whose date column `get_date_range`
      overwrites. */
  class DateFrame {
    var column: seq<DateCell>

    constructor (cells: seq<DateCell>)
      ensures column == cells
    {
      column := cells;
    }

    /** `get_date_range`: parses the column in place, then returns its
        `(min, max)`. When parsing fails the column is left as it was. */
    method GetDateRange(parse: string -> Option<int>) returns (r: DateRange)
      modifies this
      ensures ParseColumn(old(column), parse).None? ==> r == ParseError && column == old(column)
      ensures ParseColumn(old(column), parse).Some? ==>
                column == ParseColumn(old(column), parse).value && r == Extent(column)
      ensures r.Range? ==> r.lo <= r.hi
    {
      var parsed := ParseColumn(column, parse);
      if parsed.None? {
        return ParseError;
      }
      column := parsed.value;
      r := Extent(column);
    }
  }
}
