/** String and number helpers shared by the three booking screens: the
    zero-padded "HH:00" hour labels they build, the JavaScript parsing they
    apply to such labels (`parseInt`, `Number`), and the `split`, `trim`,
    `toLowerCase` and `includes` string operations they use. */
module Text {

  /** A JavaScript value that may be missing; `None` also stands for NaN. */
  datatype Option<+T> = None | Some(value: T)

  predicate IsDigit(c: char) { '0' <= c <= '9' }

  predicate AllDigits(s: string) { forall i :: 0 <= i < |s| ==> IsDigit(s[i]) }

  function DigitChar(d: nat): (c: char)
    requires d < 10
    ensures IsDigit(c)
  {
    ('0' as int + d) as char
  }

  /** The value of a digit character (0 for any other character). */
  function DigitValue(c: char): (d: nat)
    ensures IsDigit(c) ==> d < 10 && DigitChar(d) == c
  {
    if IsDigit(c) then c as int - '0' as int else 0
  }

  /** Decimal rendering of a non-negative number (`n.toString()`). */
  function NatToString(n: nat): string
  {
    if n < 10 then [DigitChar(n)] else NatToString(n / 10) + [DigitChar(n % 10)]
  }

  /** Value of a string of decimal digits, most significant first. */
  function DigitsValue(ds: string): nat
  {
    if ds == [] then 0 else 10 * DigitsValue(ds[..|ds| - 1]) + DigitValue(ds[|ds| - 1])
  }

  /** `n.toString().padStart(2, "0")`. */
  function Pad2(n: nat): string
  {
    var d := NatToString(n);
    if |d| < 2 then "0" + d else d
  }

  /** The "HH:00" label of hour `h`, as every screen builds it. */
  function HourLabel(h: nat): string
  {
    Pad2(h) + ":00"
  }

  /** The label of a possibly-NaN hour: JavaScript renders NaN as "NaN:00". */
  function Label(h: Option<nat>): string
  {
    match h
    case None => "NaN:00"
    case Some(n) => HourLabel(n)
  }

  /** Adds `k` hours to a possibly-NaN hour (NaN + k is NaN). */
  function Shift(h: Option<nat>, k: nat): (r: Option<nat>)
    ensures r.Some? <==> h.Some?
    ensures r.Some? ==> r.value == h.value + k
  {
    match h
    case None => None
    case Some(n) => Some(n + k)
  }

  /** The maximal run of digits that starts `s`. */
  function LeadingDigits(s: string): string
  {
    if s != [] && IsDigit(s[0]) then [s[0]] + LeadingDigits(s[1..]) else []
  }

  /** `parseInt(s.split(":")[0])` for plain decimal digits: the value of
      the leading decimal digits, or NaN when there are none. Leading white
      space, signs and hexadecimal "0x" prefixes, which `parseInt` also
      reads, are not modelled. */
  function ParseHour(s: string): Option<nat>
  {
    var ds := LeadingDigits(s);
    if ds == [] then None else Some(DigitsValue(ds))
  }

  /** `Number(f)` for plain decimal digit strings: the empty field is 0, a
      field of decimal digits is its value, and any other field is NaN here.
      White space, signs, fractions, exponents and hexadecimal prefixes,
      which `Number` also reads, are not modelled. */
  function JsNumber(f: string): Option<nat>
  {
    if f == [] then Some(0) else if AllDigits(f) then Some(DigitsValue(f)) else None
  }

  /** `s.split(sep)[0]`: everything before the first occurrence of `sep`. */
  function FieldBefore(s: string, sep: string): (f: string)
    requires sep != []
    ensures f <= s
  {
    if sep <= s then [] else if s == [] then [] else [s[0]] + FieldBefore(s[1..], sep)
  }

  predicate IsSpace(c: char)
  {
    c == ' ' || c == '\t' || c == '\n' || c == '\r' || c == '\U{B}' || c == '\U{C}'
  }

  function TrimStart(s: string): (r: string)
    ensures r == [] || !IsSpace(r[0])
  {
    if s != [] && IsSpace(s[0]) then TrimStart(s[1..]) else s
  }

  function TrimEnd(s: string): (r: string)
    ensures r == [] || !IsSpace(r[|r| - 1])
  {
    if s != [] && IsSpace(s[|s| - 1]) then TrimEnd(s[..|s| - 1]) else s
  }

  /** `s.trim()`. */
  function Trim(s: string): string
  {
    TrimEnd(TrimStart(s))
  }

  /** `s.toLowerCase()` restricted to ASCII letters. */
  function ToLower(s: string): (r: string)
    ensures |r| == |s|
  {
    if s == [] then []
    else [if 'A' <= s[0] <= 'Z' then (s[0] as int + 32) as char else s[0]] + ToLower(s[1..])
  }

  /** `s.includes(t)`. */
  predicate Contains(s: string, t: string)
  {
    t <= s || (s != [] && Contains(s[1..], t))
  }

  /** JavaScript `s || d` on an optional string: null, undefined and "" fall back to `d`. */
  function OrString(s: Option<string>, d: string): (r: string)
    ensures s.Some? && s.value != "" ==> r == s.value
    ensures (s.None? || s.value == "") ==> r == d
  {
    if s.Some? && s.value != "" then s.value else d
  }

  /** JavaScript `n || d` on an optional count: null, undefined and 0 fall back to `d`. */
  function OrNat(n: Option<nat>, d: nat): (r: nat)
    ensures n.Some? && n.value != 0 ==> r == n.value
    ensures (n.None? || n.value == 0) ==> r == d
  {
    if n.Some? && n.value != 0 then n.value else d
  }

  // ---------------------------------------------------------------------
  // Round trips between the labels and their parsers

  /** `toString` gives at least one digit, and exactly one below 10. */
  lemma {:induction false} NatToStringDigits(n: nat)
    ensures |NatToString(n)| >= 1 && AllDigits(NatToString(n))
    ensures n < 10 <==> |NatToString(n)| == 1
  {
    if n >= 10 {
      NatToStringDigits(n / 10);
    }
  }

  /** Padding gives at least two digits. */
  lemma Pad2Digits(n: nat)
    ensures |Pad2(n)| >= 2 && AllDigits(Pad2(n))
  {
    NatToStringDigits(n);
  }

  lemma {:induction false} NatToStringValue(n: nat)
    ensures DigitsValue(NatToString(n)) == n
  {
    if n >= 10 {
      var s := NatToString(n);
      assert s[..|s| - 1] == NatToString(n / 10);
      NatToStringValue(n / 10);
    }
  }

  lemma {:induction false} LeadingZeroValue(ds: string)
    requires AllDigits(ds)
    ensures AllDigits("0" + ds) && DigitsValue("0" + ds) == DigitsValue(ds)
  {
    var z := "0" + ds;
    if ds != [] {
      assert z[..|z| - 1] == "0" + ds[..|ds| - 1];
      LeadingZeroValue(ds[..|ds| - 1]);
    }
  }

  lemma Pad2Value(n: nat)
    ensures DigitsValue(Pad2(n)) == n
  {
    NatToStringValue(n);
    if n < 10 { LeadingZeroValue(NatToString(n)); }
  }

  lemma {:induction false} LeadingDigitsOfJoin(ds: string, rest: string)
    requires AllDigits(ds)
    requires rest == [] || !IsDigit(rest[0])
    ensures LeadingDigits(ds + rest) == ds
  {
    if ds != [] {
      assert (ds + rest)[1..] == ds[1..] + rest;
      LeadingDigitsOfJoin(ds[1..], rest);
    }
  }

  /** `parseInt` reads back the hour of any label, whatever follows it. */
  lemma ParseHourLabel(h: nat, rest: string)
    ensures ParseHour(HourLabel(h) + rest) == Some(h)
  {
    assert HourLabel(h) + rest == Pad2(h) + (":00" + rest);
    Pad2Digits(h);
    LeadingDigitsOfJoin(Pad2(h), ":00" + rest);
    Pad2Value(h);
  }

  lemma HourLabelInjective(a: nat, b: nat)
    requires HourLabel(a) == HourLabel(b)
    ensures a == b
  {
    ParseHourLabel(a, "");
    ParseHourLabel(b, "");
    assert HourLabel(a) + "" == HourLabel(a);
    assert HourLabel(b) + "" == HourLabel(b);
  }

  /** Hours below 100 give exactly two digits followed by ":00". */
  lemma HourLabelShape(h: nat)
    requires h < 100
    ensures HourLabel(h) == [DigitChar(h / 10), DigitChar(h % 10), ':', '0', '0']
  {
    if h >= 10 {
      assert NatToString(h / 10) == [DigitChar(h / 10)];
    }
  }

  lemma {:induction false} FieldBeforeJoin(a: string, sep: string, rest: string)
    requires sep != []
    requires forall i :: 0 <= i < |a| ==> a[i] != sep[0]
    ensures FieldBefore(a + sep + rest, sep) == a
  {
    var s := a + sep + rest;
    if a == [] {
      assert s == sep + rest;
    } else {
      assert s[0] == a[0];
      assert s[1..] == a[1..] + sep + rest;
      FieldBeforeJoin(a[1..], sep, rest);
    }
  }

  lemma TrimNoEdgeSpace(s: string)
    requires s == [] || (!IsSpace(s[0]) && !IsSpace(s[|s| - 1]))
    ensures Trim(s) == s
  {
  }

  /** The field before " - " of a stored "HH:00 - ..." range, trimmed, is the start label. */
  lemma RangeStartRoundTrip(h: nat, rest: string)
    ensures Trim(FieldBefore(HourLabel(h) + " - " + rest, " - ")) == HourLabel(h)
  {
    var l := HourLabel(h);
    Pad2Digits(h);
    assert forall i :: 0 <= i < |l| ==> l[i] != ' ' by {
      assert l == Pad2(h) + ":00";
      forall i | 0 <= i < |l| ensures l[i] != ' ' {
        if i < |Pad2(h)| { assert IsDigit(Pad2(h)[i]); }
      }
    }
    FieldBeforeJoin(l, " - ", rest);
    TrimNoEdgeSpace(l);
  }

  /** `Number(label.split(":")[0])` is the hour of the label, whatever follows it. */
  lemma NumberOfLabelField(h: nat, rest: string)
    ensures JsNumber(FieldBefore(HourLabel(h) + rest, ":")) == Some(h)
  {
    var p := Pad2(h);
    Pad2Digits(h);
    assert forall i :: 0 <= i < |p| ==> p[i] != ':' by {
      forall i | 0 <= i < |p| ensures p[i] != ':' { assert IsDigit(p[i]); }
    }
    assert HourLabel(h) + rest == p + ":" + ("00" + rest);
    FieldBeforeJoin(p, ":", "00" + rest);
    Pad2Value(h);
  }

  /** Searching for the empty string always succeeds. */
  lemma ContainsEmpty(s: string)
    ensures Contains(s, "")
  {
  }
}
