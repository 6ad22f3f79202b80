/**
 * Locale-free parsing of corporate-action messages: the "mon day yy" date
 * parser and the dividend/split message classifier. The two regular
 * expressions of the message parser are not modelled; their capture groups
 * are the classifier's inputs.
 */
module EventParser {
  import opened Wrappers
  import opened Text
  import opened Dates

  const MonthAbbreviations: seq<string> :=
    ["jan", "feb", "mar", "apr", "may", "jun", "jul", "aug", "sep", "oct", "nov", "dec"]

  /** `month_map.get(abbrev)`. */
  function MonthNumber(abbrev: string): (m: Option<int>)
    ensures m.Some? ==> 1 <= m.value <= 12 && MonthAbbreviations[m.value - 1] == abbrev
    ensures m.None? <==> abbrev !in MonthAbbreviations
  {
    if abbrev == "jan" then Some(1)
    else if abbrev == "feb" then Some(2)
    else if abbrev == "mar" then Some(3)
    else if abbrev == "apr" then Some(4)
    else if abbrev == "may" then Some(5)
    else if abbrev == "jun" then Some(6)
    else if abbrev == "jul" then Some(7)
    else if abbrev == "aug" then Some(8)
    else if abbrev == "sep" then Some(9)
    else if abbrev == "oct" then Some(10)
    else if abbrev == "nov" then Some(11)
    else if abbrev == "dec" then Some(12)
    else None
  }

  /** `s[:3]`. */
  function Prefix3(s: string): (p: string)
    ensures |p| <= 3 && StartsWith(s, p)
    ensures |s| >= 3 ==> |p| == 3
  {
    if |s| <= 3 then s else s[..3]
  }

  predicate NoSpace(w: string)
  {
    forall i :: 0 <= i < |w| ==> !IsSpace(w[i])
  }

  /** The length of the run of non-space characters at the front of `t`. */
  function TokenEnd(t: string): (n: nat)
    ensures n <= |t| && NoSpace(t[..n])
    ensures n < |t| ==> IsSpace(t[n])
  {
    if t == [] || IsSpace(t[0]) then 0
    else
      var n := TokenEnd(t[1..]);
      assert t[..n + 1] == [t[0]] + t[1..][..n];
      n + 1
  }

  /** `str.split()` with no separator: the maximal runs of non-space characters. */
  function Words(s: string): (ws: seq<string>)
    ensures forall w :: w in ws ==> IsWord(w)
    decreases |s|
  {
    var t := StripLeft(s);
    if t == [] then []
    else
      var n := TokenEnd(t);
      [t[..n]] + Words(t[n..])
  }

  /** A word of `str.split()`: non-empty and free of whitespace. */
  predicate IsWord(w: string)
  {
    w != [] && NoSpace(w)
  }

  predicate IsDigit(c: char)
  {
    '0' <= c <= '9'
  }

  predicate AllDigits(s: string)
  {
    forall i :: 0 <= i < |s| ==> IsDigit(s[i])
  }

  /** The number a string of decimal digits spells. */
  function DigitsValue(s: string): (n: nat)
    requires AllDigits(s)
  {
    if s == [] then 0 else DigitsValue(s[..|s| - 1]) * 10 + (s[|s| - 1] as int - '0' as int)
  }

  /** `int(token)` for a whitespace-free token: an optional sign and at least one digit. */
  function ParseInt(s: string): (r: Option<int>)
    ensures s != [] && AllDigits(s) ==> r == Some(DigitsValue(s))
    ensures r.Some? ==> |s| >= 1
  {
    if s != [] && AllDigits(s) then Some(DigitsValue(s))
    else if |s| >= 2 && (s[0] == '+' || s[0] == '-') && AllDigits(s[1..]) then
      var magnitude: int := DigitsValue(s[1..]);
      Some(if s[0] == '-' then -magnitude else magnitude)
    else None
  }

  datatype DateParse = ParsedDate(year: int, month: int, day: int) | UnknownMonth | MalformedDate

  /**
   * `parse_date_robustly`: month from the first three letters of the first
   * word, day from the second word, year 2000 + the third word. An unknown
   * month raises ValueError (UnknownMonth); a missing word, a non-integer or
   * an impossible date raises too (MalformedDate).
   */
  function ParseDateRobustly(dateStr: string): (r: DateParse)
    ensures r == UnknownMonth <==> UnknownMonthWord(Words(Lower(dateStr)))
    ensures r.ParsedDate? ==> SpellsDate(Words(Lower(dateStr)), r.year, r.month, r.day)
    ensures forall year, month, day :: SpellsDate(Words(Lower(dateStr)), year, month, day) ==> r == ParsedDate(year, month, day)
  {
    DateFromWords(Words(Lower(dateStr)))
  }

  /** The first word's three-letter prefix is no month abbreviation. */
  predicate UnknownMonthWord(parts: seq<string>)
  {
    |parts| >= 1 && MonthNumber(Prefix3(parts[0])).None?
  }

  /** The words give the month, the day and the year less 2000 of a valid date. */
  predicate SpellsDate(parts: seq<string>, year: int, month: int, day: int)
  {
    && |parts| >= 3
    && MonthNumber(Prefix3(parts[0])) == Some(month)
    && ParseInt(parts[1]) == Some(day)
    && ParseInt(parts[2]) == Some(year - 2000)
    && ValidDate(year, month, day)
  }

  /** The date the words of the lower-cased text spell. */
  function DateFromWords(parts: seq<string>): (r: DateParse)
    ensures r == UnknownMonth <==> UnknownMonthWord(parts)
    ensures r.ParsedDate? ==> SpellsDate(parts, r.year, r.month, r.day)
    ensures forall year, month, day :: SpellsDate(parts, year, month, day) ==> r == ParsedDate(year, month, day)
  {
    if |parts| == 0 then MalformedDate
    else match MonthNumber(Prefix3(parts[0]))
      case None => UnknownMonth
      case Some(month) =>
        if |parts| < 3 then MalformedDate
        else match (ParseInt(parts[1]), ParseInt(parts[2]))
          case (Some(day), Some(yy)) =>
            if ValidDate(2000 + yy, month, day) then ParsedDate(2000 + yy, month, day) else MalformedDate
          case _ => MalformedDate
  }

  /** `float(text)` on strings of digits and dots, the only ones the message patterns capture. */
  function ParseDecimal(s: string): (r: Option<real>)
    ensures r.Some? ==> r.value >= 0.0
    ensures s != [] && AllDigits(s) ==> r == Some(DigitsValue(s) as real)
  {
    if s != [] && AllDigits(s) then Some(DigitsValue(s) as real)
    else
      var dot := DotIndex(s);
      if dot < |s| && AllDigits(s[..dot]) && AllDigits(s[dot + 1..]) && |s| >= 2 then
        Some(DigitsValue(s[..dot]) as real + Fraction(s[dot + 1..]))
      else None
  }

  function DotIndex(s: string): (k: nat)
    ensures k <= |s| && (k < |s| ==> s[k] == '.')
  {
    if s == [] || s[0] == '.' then 0 else DotIndex(s[1..]) + 1
  }

  /** The value of the digits after the decimal point. */
  function Fraction(digits: string): (f: real)
    requires AllDigits(digits)
    ensures 0.0 <= f <= 1.0
  {
    if digits == [] then 0.0
    else ((digits[0] as int - '0' as int) as real + Fraction(digits[1..])) / 10.0
  }

  /** Ten characters `DD.MM.YYYY`: digits with dots at positions 2 and 5. */
  predicate DottedShape(text: string)
  {
    |text| == 10 && text[2] == '.' && text[5] == '.'
    && AllDigits(text[..2]) && AllDigits(text[3..5]) && AllDigits(text[6..])
  }

  /** `datetime.strptime(text, "%d.%m.%Y").date()` on the captured `DD.MM.YYYY` text. */
  function ParseDottedDate(text: string): (r: Option<int>)
    ensures r.Some? ==> DottedShape(text)
    ensures r.Some? ==>
      && ValidDate(DigitsValue(text[6..]), DigitsValue(text[3..5]), DigitsValue(text[..2]))
      && r.value == Ordinal(DigitsValue(text[6..]), DigitsValue(text[3..5]), DigitsValue(text[..2]))
    ensures DottedShape(text) && ValidDate(DigitsValue(text[6..]), DigitsValue(text[3..5]), DigitsValue(text[..2])) ==>
      r == Some(Ordinal(DigitsValue(text[6..]), DigitsValue(text[3..5]), DigitsValue(text[..2])))
  {
    if DottedShape(text) then
      var day, month, year := DigitsValue(text[..2]), DigitsValue(text[3..5]), DigitsValue(text[6..]);
      if ValidDate(year, month, day) then Some(Ordinal(year, month, day)) else None
    else None
  }

  /** The three capture groups of a message pattern: date text, symbol, percentage text. */
  datatype Match = Match(dateText: string, symbol: string, percentText: string)

  datatype Event =
    | Dividend(date: int, symbol: string, percentage: real)
    | Split(date: int, symbol: string, ratio: real)

  /** `None` is `NoEvent`; a date or number the parsers reject raises, `Raised`. */
  datatype EventParse = NoEvent | Raised | Parsed(event: Event)

  /** Both captured texts convert: the date with `strptime`, the percentage with `float`. */
  predicate Converts(m: Match)
  {
    ParseDottedDate(m.dateText).Some? && ParseDecimal(m.percentText).Some?
  }

  /**
   * `parse_event_message` given what the dividend and the split patterns
   * matched: the dividend pattern is tried first, the split ratio is
   * 1 + percentage / 100.
   */
  function ParseEventMessage(dividendMatch: Option<Match>, splitMatch: Option<Match>): (r: EventParse)
    ensures r == NoEvent <==> dividendMatch.None? && splitMatch.None?
    ensures r == Raised <==>
      if dividendMatch.Some? then !Converts(dividendMatch.value) else splitMatch.Some? && !Converts(splitMatch.value)
    ensures dividendMatch.Some? && r.Parsed? ==> r.event.Dividend? && r.event.symbol == dividendMatch.value.symbol
    ensures dividendMatch.None? && r.Parsed? ==> r.event.Split? && r.event.symbol == splitMatch.value.symbol
    ensures r.Parsed? && r.event.Dividend? ==>
      Some(r.event.percentage) == ParseDecimal(dividendMatch.value.percentText)
      && Some(r.event.date) == ParseDottedDate(dividendMatch.value.dateText)
    ensures r.Parsed? && r.event.Split? ==>
      ParseDecimal(splitMatch.value.percentText).Some?
      && r.event.ratio == 1.0 + ParseDecimal(splitMatch.value.percentText).value / 100.0
      && r.event.ratio >= 1.0
      && Some(r.event.date) == ParseDottedDate(splitMatch.value.dateText)
  {
    match dividendMatch
    case Some(m) =>
      (match (ParseDottedDate(m.dateText), ParseDecimal(m.percentText))
        case (Some(d), Some(pct)) => Parsed(Dividend(d, m.symbol, pct))
        case _ => Raised)
    case None =>
      match splitMatch
      case Some(m) =>
        (match (ParseDottedDate(m.dateText), ParseDecimal(m.percentText))
          case (Some(d), Some(pct)) => Parsed(Split(d, m.symbol, 1.0 + pct / 100.0))
          case _ => Raised)
      case None => NoEvent
  }
}
