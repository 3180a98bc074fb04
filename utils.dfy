/** frontend/src/shared/lib/utils.ts: date and price formatting, and the
    blank checks used by the forms. `Intl` formatting, the parsing of date
    strings and the local-time breakdown of an instant are parameters. */
module Utils {
  import opened Wrappers
  import opened Text

  /** The argument of `formatDate`: null or undefined, a string, or a `Date`
      whose time value is `None` when it is an Invalid Date. */
  datatype DateInput = Missing | DateString(text: string) | DateObject(time: Option<int>)

  /** `options`: a template string, or `Intl.DateTimeFormat` options. */
  datatype DateFormat = Template(pattern: string) | IntlOptions

  /** The local-time fields of an instant, `month` counted from 0 as
      `getMonth` does. */
  datatype DateFields = DateFields(year: int, month: nat, day: nat, hours: nat, minutes: nat, seconds: nat)

  /** The texts that replace the placeholders. */
  datatype DateTexts = DateTexts(year: string, month: string, day: string,
                                 hours: string, minutes: string, seconds: string)

  const DefaultPattern := "YYYY-MM-DD"

  /** The placeholders replaced, each at its first occurrence only, in the
      order YYYY, MM, DD, HH, mm, ss. */
  function ReplacePlaceholders(pattern: string, year: string, month: string, day: string,
                               hours: string, minutes: string, seconds: string): string
  {
    ReplaceFirst(ReplaceFirst(ReplaceFirst(ReplaceFirst(ReplaceFirst(ReplaceFirst(
      pattern, "YYYY", year), "MM", month), "DD", day), "HH", hours), "mm", minutes), "ss", seconds)
  }

  /** The instant `formatDate` formats: none for a falsy input, `parse` of
      a string, the time value of a `Date`. */
  function Instant(input: DateInput, parse: string -> Option<int>): Option<int>
  {
    if input.Missing? || input == DateString("") then None
    else if input.DateString? then parse(input.text)
    else input.time
  }

  /** The placeholder texts of the local-time fields: the year as written,
      the month counted from 1 and every other field padded to two digits. */
  function Texts(f: DateFields): (t: DateTexts)
    ensures t.year == IntToString(f.year) && t.month == Pad2(f.month + 1) && t.day == Pad2(f.day)
    ensures t.hours == Pad2(f.hours) && t.minutes == Pad2(f.minutes) && t.seconds == Pad2(f.seconds)
  {
    DateTexts(IntToString(f.year), Pad2(f.month + 1), Pad2(f.day), Pad2(f.hours), Pad2(f.minutes), Pad2(f.seconds))
  }

  /** A template with its placeholders replaced by the given texts. */
  function Filled(pattern: string, t: DateTexts): string
  {
    ReplacePlaceholders(pattern, t.year, t.month, t.day, t.hours, t.minutes, t.seconds)
  }

  /** `formatDate(dateInput, options)`: '' for a falsy input or an invalid
      date. `parse` stands for `new Date(string)`, `local` for the local-time
      getters and `intl` for `Intl.DateTimeFormat('ko-KR', options).format`. */
  function FormatDate(input: DateInput, options: DateFormat, parse: string -> Option<int>,
                      local: int -> DateFields, intl: int -> string): (r: string)
    ensures input.Missing? || input == DateString("") ==> r == ""
    ensures input.DateString? && parse(input.text).None? ==> r == ""
    ensures input.DateObject? && input.time.None? ==> r == ""
    ensures Instant(input, parse).Some? && options.Template? ==>
      r == Filled(options.pattern, Texts(local(Instant(input, parse).value)))
    ensures Instant(input, parse).Some? && options.IntlOptions? ==> r == intl(Instant(input, parse).value)
  {
    if input.Missing? || input == DateString("") then ""
    else
      var time := if input.DateString? then parse(input.text) else input.time;
      if time.None? then ""
      else if options.Template? then Filled(options.pattern, Texts(local(time.value)))
      else intl(time.value)
  }

  /** Digits and '-' only, as a filled date template is. */
  predicate DateText(text: string)
  {
    forall i :: 0 <= i < |text| ==> text[i] == '-' || '0' <= text[i] <= '9'
  }

  lemma DateTextLacks(text: string, c: char)
    requires DateText(text) && c != '-' && !('0' <= c <= '9')
    ensures Lacks(text, c)
  {
  }

  lemma DateTextConcat(a: string, b: string)
    requires DateText(a) && DateText(b)
    ensures DateText(a + b)
  {
    forall i | |a| <= i < |a + b| ensures (a + b)[i] == '-' || '0' <= (a + b)[i] <= '9' {
      assert (a + b)[i] == b[i - |a|];
    }
  }

  lemma DigitsText(text: string)
    requires IsDigits(text)
    ensures DateText(text)
  {
  }

  /** The year's text: digits and maybe a leading '-'. */
  lemma YearText(year: int)
    ensures DateText(IntToString(year))
  {
    var y := IntToString(year);
    if year < 0 {
      var d := NatToString(-year);
      assert y == "-" + d;
      forall k | 1 <= k < |y| ensures '0' <= y[k] <= '9' {
        assert y[k] == d[k - 1];
      }
    }
  }

  /** The default template filled with texts of digits and '-'. */
  lemma DefaultPatternFilled(y: string, mo: string, d: string, h: string, mi: string, s: string)
    requires DateText(y) && DateText(mo) && DateText(d)
    ensures ReplacePlaceholders(DefaultPattern, y, mo, d, h, mi, s) == y + "-" + mo + "-" + d
  {
    var a1 := y + "-";
    var r1 := a1 + "MM" + "-DD";
    var a2 := a1 + mo + "-";
    var r2 := a2 + "DD" + "";
    var r3 := a2 + d;
    assert DefaultPattern == "" + "YYYY" + "-MM-DD";
    ReplaceAfterPrefix("", "YYYY", "-MM-DD", y);
    assert ReplaceFirst(DefaultPattern, "YYYY", y) == r1;
    DateTextConcat(y, "-");
    DateTextLacks(a1, 'M');
    ReplaceAfterPrefix(a1, "MM", "-DD", mo);
    assert ReplaceFirst(r1, "MM", mo) == r2;
    DateTextConcat(a1, mo);
    DateTextConcat(a1 + mo, "-");
    DateTextLacks(a2, 'D');
    ReplaceAfterPrefix(a2, "DD", "", d);
    assert ReplaceFirst(r2, "DD", d) == r3;
    DateTextConcat(a2, d);
    DateTextLacks(r3, 'H');
    DateTextLacks(r3, 'm');
    DateTextLacks(r3, 's');
    TimeAbsent(r3, h, mi, s);
    assert r3 == y + "-" + mo + "-" + d;
  }

  /** A text without 'H', 'm' and 's' has none of the time placeholders. */
  lemma TimeAbsent(text: string, h: string, mi: string, s: string)
    requires Lacks(text, 'H') && Lacks(text, 'm') && Lacks(text, 's')
    ensures ReplaceFirst(ReplaceFirst(ReplaceFirst(text, "HH", h), "mm", mi), "ss", s) == text
  {
    ReplaceAbsent(text, "HH", h);
    ReplaceAbsent(text, "mm", mi);
    ReplaceAbsent(text, "ss", s);
  }

  /** The default template filled with the texts of any local-time fields. */
  lemma DefaultFilled(t: DateTexts)
    requires DateText(t.year) && DateText(t.month) && DateText(t.day)
    ensures Filled(DefaultPattern, t) == t.year + "-" + t.month + "-" + t.day
  {
    DefaultPatternFilled(t.year, t.month, t.day, t.hours, t.minutes, t.seconds);
  }

  /** `formatDate` with the default template gives the local year, month and
      day joined by '-': the month counted from 1 and both padded to two
      digits. */
  lemma DefaultTemplate(input: DateInput, parse: string -> Option<int>, local: int -> DateFields, intl: int -> string)
    requires Instant(input, parse).Some?
    ensures var f := local(Instant(input, parse).value);
      FormatDate(input, Template(DefaultPattern), parse, local, intl)
        == IntToString(f.year) + "-" + Pad2(f.month + 1) + "-" + Pad2(f.day)
  {
    var f := local(Instant(input, parse).value);
    var t := Texts(f);
    YearText(f.year);
    DigitsText(t.month);
    DigitsText(t.day);
    DefaultFilled(t);
  }

  /** Only the first occurrence of a placeholder is filled: "MM/MM" keeps its
      second "MM". */
  lemma FirstOccurrenceOnly(y: string, mo: string, d: string, h: string, mi: string, s: string)
    requires DateText(mo)
    ensures ReplacePlaceholders("MM/MM", y, mo, d, h, mi, s) == mo + "/MM"
  {
    var p := "MM/MM";
    var r2 := mo + "/MM";
    ReplaceAbsent(p, "YYYY", y);
    assert p == "" + "MM" + "/MM";
    ReplaceAfterPrefix("", "MM", "/MM", mo);
    assert ReplaceFirst(p, "MM", mo) == r2;
    MonthTextLacks(mo);
    ReplaceAbsent(r2, "DD", d);
    TimeAbsent(r2, h, mi, s);
  }

  /** The month's text followed by "/MM" has no other placeholder's letter. */
  lemma MonthTextLacks(mo: string)
    requires DateText(mo)
    ensures Lacks(mo + "/MM", 'D') && Lacks(mo + "/MM", 'H') && Lacks(mo + "/MM", 'm') && Lacks(mo + "/MM", 's')
  {
    var tail := "/MM";
    assert Lacks(tail, 'D') && Lacks(tail, 'H') && Lacks(tail, 'm') && Lacks(tail, 's');
    forall c | c in "DHms"
      ensures Lacks(mo + tail, c)
    {
      DateTextLacks(mo, c);
      LacksConcat(mo, tail, c);
    }
  }

  /** A JavaScript value as the object helpers see it. */
  datatype JsValue = JsNull | JsUndefined | JsString(s: string) | JsNumber(n: int) | JsBool(b: bool) | JsObject

  /** The filter of `removeEmptyValues`: neither null, undefined nor ''. */
  predicate Present(v: JsValue)
  {
    !v.JsNull? && !v.JsUndefined? && v != JsString("")
  }

  /** `removeEmptyValues(obj)` on `Object.entries(obj)`, in their order. */
  function RemoveEmptyValues(entries: seq<(string, JsValue)>): (r: seq<(string, JsValue)>)
    ensures forall e :: e in r <==> e in entries && Present(e.1)
    ensures |r| <= |entries|
  {
    if entries == [] then []
    else
      var rest := RemoveEmptyValues(entries[1..]);
      assert forall e :: e in entries <==> e == entries[0] || e in entries[1..];
      if Present(entries[0].1) then [entries[0]] + rest else rest
  }

  /** The filter keeps the order: it works entry by entry. */
  lemma {:induction false} RemoveEmptyValuesAppend(a: seq<(string, JsValue)>, b: seq<(string, JsValue)>)
    ensures RemoveEmptyValues(a + b) == RemoveEmptyValues(a) + RemoveEmptyValues(b)
  {
    if a == [] {
      assert a + b == b;
    } else {
      assert (a + b)[1..] == a[1..] + b;
      RemoveEmptyValuesAppend(a[1..], b);
    }
  }

  /** Filtering twice is filtering once. */
  lemma {:induction false} RemoveEmptyValuesIdempotent(entries: seq<(string, JsValue)>)
    ensures RemoveEmptyValues(RemoveEmptyValues(entries)) == RemoveEmptyValues(entries)
  {
    if entries != [] {
      RemoveEmptyValuesIdempotent(entries[1..]);
    }
  }

  /** Falsy values other than the three empty ones survive: 0 and false are
      kept. */
  lemma ZeroAndFalseKept(entries: seq<(string, JsValue)>, key: string)
    ensures (key, JsNumber(0)) in entries ==> (key, JsNumber(0)) in RemoveEmptyValues(entries)
    ensures (key, JsBool(false)) in entries ==> (key, JsBool(false)) in RemoveEmptyValues(entries)
    ensures (key, JsString("")) !in RemoveEmptyValues(entries)
  {
  }

  /** `isEmpty(value)`: null, undefined, or only whitespace. */
  function IsEmpty(value: Option<string>): (r: bool)
    ensures r <==> value.None? || forall i :: 0 <= i < |value.value| ==> IsJsWhitespace(value.value[i])
  {
    if value.None? then true
    else
      TrimEmptyIffAllWhitespace(value.value);
      Trim(value.value) == ""
  }

  /** A JavaScript number: NaN or a value. */
  datatype Number = NaN | Num(v: real)

  /** The argument of `formatPrice`: a number, an object with an `amount`
      property (`None` when that is not a number), or anything else. */
  datatype PriceArg = NumberArg(n: Number) | AmountObject(amount: Option<Number>) | OtherArg

  const ZeroWon := "₩0"

  /** `formatPrice(price, options)`: the number, or the object's numeric
      `amount`, through `format` (`Intl.NumberFormat` with the options);
      "₩0" for NaN and for everything else. */
  function FormatPrice(price: PriceArg, format: real -> string): (r: string)
    ensures (price.NumberArg? && price.n.Num?) ==> r == format(price.n.v)
    ensures (price.AmountObject? && price.amount.Some? && price.amount.value.Num?) ==> r == format(price.amount.value.v)
  {
    match price
    case NumberArg(Num(v)) => format(v)
    case AmountObject(Some(Num(v))) => format(v)
    case _ => ZeroWon
  }

  /** NaN, a missing or non-numeric amount, and any other argument all give
      "₩0" without reaching `Intl`. */
  lemma PriceFallback(price: PriceArg, format: real -> string)
    requires !(price.NumberArg? && price.n.Num?)
    requires !(price.AmountObject? && price.amount.Some? && price.amount.value.Num?)
    ensures FormatPrice(price, format) == ZeroWon
  {
  }
}
