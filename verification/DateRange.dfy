/** Scanning as the standard library's sscanf does it, for the directives that date ranges use. */
module Scanning {
  import opened Arithmetic

  /** Word is a run of lower-case letters, Blank any white space. */
  datatype Directive = Word | Integer | Unsigned | Blank | Literal(c: char)

  datatype Format = End | Then(first: Directive, rest: Format)

  datatype Value = Text(s: string) | Number(n: int)

  /** The values stored, up to the end of the format or the first directive that fails, and the input left
      there. */
  datatype Scanned = Scanned(values: seq<Value>, left: string)

  function Got(v: Value, r: Scanned): Scanned {
    Scanned([v] + r.values, r.left)
  }

  function Stop(s: string): Scanned {
    Scanned([], s)
  }

  predicate IsLetter(c: char) { 'a' <= c <= 'z' }

  predicate IsDigit(c: char) { '0' <= c <= '9' }

  predicate IsBlank(c: char) { c == ' ' || '\t' <= c <= 13 as char }

  function Letters(s: string): (n: nat)
    ensures n <= |s|
  {
    if s == "" || !IsLetter(s[0]) then 0 else 1 + Letters(s[1..])
  }

  function Digits(s: string): (n: nat)
    ensures n <= |s|
  {
    if s == "" || !IsDigit(s[0]) then 0 else 1 + Digits(s[1..])
  }

  predicate AllBlank(s: string) {
    forall k :: 0 <= k < |s| ==> IsBlank(s[k])
  }

  function SkipBlanks(s: string): (r: string)
    ensures |r| <= |s|
  {
    if s == "" || !IsBlank(s[0]) then s else SkipBlanks(s[1..])
  }

  predicate AllDigits(s: string) {
    forall k :: 0 <= k < |s| ==> IsDigit(s[k])
  }

  predicate AllLetters(s: string) {
    forall k :: 0 <= k < |s| ==> IsLetter(s[k])
  }

  /** The decimal value of a string of digits. */
  function ValueOf(s: string): nat
    requires AllDigits(s)
  {
    if s == "" then 0 else ValueOf(s[..|s| - 1]) * 10 + (s[|s| - 1] - '0') as int
  }

  function ToUint32(n: int): nat {
    n % UINT32
  }

  lemma {:induction false} LettersAre(s: string)
    ensures var n := Letters(s); AllLetters(s[..n]) && (n < |s| ==> !IsLetter(s[n]))
  {
    if s != "" && IsLetter(s[0]) {
      LettersAre(s[1..]);
    }
  }

  lemma {:induction false} DigitsAre(s: string)
    ensures var n := Digits(s); AllDigits(s[..n]) && (n < |s| ==> !IsDigit(s[n]))
  {
    if s != "" && IsDigit(s[0]) {
      DigitsAre(s[1..]);
    }
  }

  lemma {:induction false} BlanksAre(s: string)
    ensures var r := SkipBlanks(s);
            r == s[|s| - |r|..] && AllBlank(s[..|s| - |r|]) && (r != "" ==> !IsBlank(r[0]))
  {
    if s != "" && IsBlank(s[0]) {
      BlanksAre(s[1..]);
    }
  }

  datatype Parsed = Nothing | Parsed(n: int, rest: string)

  /** A sign, if there is one, and at least one digit. */
  function ParseNumber(s: string): Parsed {
    var signed := s != "" && (s[0] == '-' || s[0] == '+');
    var t := if signed then s[1..] else s;
    var n := Digits(t);
    if n == 0 then Nothing
    else DigitsAre(t); var v: int := ValueOf(t[..n]); Parsed(if signed && s[0] == '-' then -v else v, t[n..])
  }

  function Scan(s: string, f: Format): Scanned
    decreases f
  {
    match f
    case End => Stop(s)
    case Then(Blank, g) => Scan(SkipBlanks(s), g)
    case Then(Literal(c), g) => if s != "" && s[0] == c then Scan(s[1..], g) else Stop(s)
    case Then(Word, g) =>
      var n := Letters(s);
      if n == 0 then Stop(s) else Got(Text(s[..n]), Scan(s[n..], g))
    case Then(Integer, g) =>
      (match ParseNumber(SkipBlanks(s))
       case Nothing => Stop(s)
       case Parsed(n, t) => Got(Number(ToInt32(n)), Scan(t, g)))
    case Then(Unsigned, g) =>
      (match ParseNumber(SkipBlanks(s))
       case Nothing => Stop(s)
       case Parsed(n, t) => Got(Number(ToUint32(n)), Scan(t, g)))
  }

  // ----- printing numbers

  function Decimal(n: nat): (s: string)
    ensures |s| > 0 && AllDigits(s) && ValueOf(s) == n
    decreases n
  {
    var d := [('0' as int + n % 10) as char];
    if n < 10 then ValueOfOne(d[0]); d
    else ValueOfSnoc(Decimal(n / 10), d[0]); Decimal(n / 10) + d
  }

  lemma ValueOfOne(c: char)
    requires IsDigit(c)
    ensures ValueOf([c]) == (c - '0') as int
  {
    assert [c][..0] == "";
  }

  lemma ValueOfSnoc(s: string, c: char)
    requires AllDigits(s) && IsDigit(c)
    ensures ValueOf(s + [c]) == ValueOf(s) * 10 + (c - '0') as int
  {
    assert (s + [c])[..|s|] == s;
  }

  function Signed(n: int): string {
    if n < 0 then "-" + Decimal(-n) else Decimal(n)
  }

  // ----- scanning what was printed

  /** Nothing, or something that does not go on with a number or a word. */
  predicate Apart(s: string) {
    s == "" || !(IsLetter(s[0]) || IsDigit(s[0]))
  }

  lemma {:induction false} LettersOf(w: string, s: string)
    requires AllLetters(w) && Apart(s)
    ensures Letters(w + s) == |w|
  {
    if w == "" {
      assert w + s == s;
    } else {
      LettersOf(w[1..], s);
      assert (w + s)[1..] == w[1..] + s;
    }
  }

  lemma {:induction false} DigitsOf(w: string, s: string)
    requires AllDigits(w) && Apart(s)
    ensures Digits(w + s) == |w|
  {
    if w == "" {
      assert w + s == s;
    } else {
      DigitsOf(w[1..], s);
      assert (w + s)[1..] == w[1..] + s;
    }
  }

  lemma ScanWord(w: string, s: string, g: Format)
    requires w != "" && AllLetters(w) && Apart(s)
    ensures Scan(w + s, Then(Word, g)) == Got(Text(w), Scan(s, g))
  {
    LettersOf(w, s);
    assert (w + s)[..|w|] == w && (w + s)[|w|..] == s;
  }

  lemma ParseDigits(d: string, s: string)
    requires d != "" && AllDigits(d) && Apart(s)
    ensures ParseNumber(d + s) == Parsed(ValueOf(d), s)
  {
    DigitsOf(d, s);
    assert (d + s)[..|d|] == d && (d + s)[|d|..] == s && (d + s)[0] == d[0];
  }

  lemma ParseNegative(d: string, s: string, t: string)
    requires d != "" && AllDigits(d) && Apart(s) && t == "-" + d
    ensures ParseNumber(t + s) == Parsed(-(ValueOf(d) as int), s)
  {
    DigitsOf(d, s);
    assert (t + s)[1..] == d + s && (t + s)[0] == '-';
    assert (d + s)[..|d|] == d && (d + s)[|d|..] == s;
  }

  lemma ParseSigned(n: int, s: string)
    requires Apart(s)
    ensures ParseNumber(Signed(n) + s) == Parsed(n, s) && SkipBlanks(Signed(n) + s) == Signed(n) + s
  {
    hide ParseNumber;
    if n < 0 {
      ParseNegative(Decimal(-n), s, Signed(n));
    } else {
      ParseDigits(Decimal(n), s);
    }
    SignedStarts(n, s);
  }

  lemma SignedStarts(n: int, s: string)
    ensures var c := (Signed(n) + s)[0]; c == '-' || IsDigit(c)
    ensures n < 0 <==> (Signed(n) + s)[0] == '-'
  {
    assert (Signed(n) + s)[0] == Signed(n)[0];
  }

  lemma ScanInteger(n: int, s: string, g: Format)
    requires Apart(s) && -0x8000_0000 <= n < 0x8000_0000
    ensures Scan(Signed(n) + s, Then(Integer, g)) == Got(Number(n), Scan(s, g))
  {
    hide ParseNumber, SkipBlanks, Decimal;
    ParseSigned(n, s);
  }

  lemma ScanUnsigned(n: int, s: string, g: Format)
    requires Apart(s)
    ensures Scan(Signed(n) + s, Then(Unsigned, g)) == Got(Number(ToUint32(n)), Scan(s, g))
  {
    hide ParseNumber, SkipBlanks, Decimal;
    ParseSigned(n, s);
  }

  lemma ScanBlank(s: string, g: Format)
    requires s == "" || !IsBlank(s[0])
    ensures Scan(" " + s, Then(Blank, g)) == Scan(s, g)
  {
    assert (" " + s)[1..] == s;
    assert SkipBlanks(s) == s;
  }

  // Input that was not printed: any white space, any sign, nothing where something is wanted.

  lemma {:induction false} SkipsAll(b: string, s: string)
    requires AllBlank(b) && (s == "" || !IsBlank(s[0]))
    ensures SkipBlanks(b + s) == s
  {
    if b == "" {
      assert b + s == s;
    } else {
      assert (b + s)[1..] == b[1..] + s;
      SkipsAll(b[1..], s);
    }
  }

  /** A blank in the format matches any amount of white space, also none. */
  lemma ScanBlanks(b: string, s: string, g: Format)
    requires AllBlank(b) && (s == "" || !IsBlank(s[0]))
    ensures Scan(b + s, Then(Blank, g)) == Scan(s, g)
  {
    SkipsAll(b, s);
  }

  /** A number with or without a sign, white space in front of it or not, up to what is no digit. */
  lemma ScanNumber(b: string, sign: string, d: string, s: string, g: Format)
    requires AllBlank(b) && (sign == "" || sign == "+" || sign == "-") && d != "" && AllDigits(d)
    requires s == "" || !IsDigit(s[0])
    ensures var v: int := ValueOf(d); var n := if sign == "-" then -v else v;
            Scan(b + (sign + (d + s)), Then(Integer, g)) == Got(Number(ToInt32(n)), Scan(s, g)) &&
            Scan(b + (sign + (d + s)), Then(Unsigned, g)) == Got(Number(ToUint32(n)), Scan(s, g))
  {
    var t := sign + (d + s);
    assert t[0] == if sign == "" then d[0] else sign[0];
    SkipsAll(b, t);
    ParseSignedDigits(sign, d, s);
    hide ParseNumber, SkipBlanks, ValueOf;
  }

  lemma ParseSignedDigits(sign: string, d: string, s: string)
    requires (sign == "" || sign == "+" || sign == "-") && d != "" && AllDigits(d) && (s == "" || !IsDigit(s[0]))
    ensures var v: int := ValueOf(d); ParseNumber(sign + (d + s)) == Parsed(if sign == "-" then -v else v, s)
  {
    DigitsUpTo(d, s);
    assert (d + s)[..|d|] == d && (d + s)[|d|..] == s && (d + s)[0] == d[0];
    var t := sign + (d + s);
    if sign == "" {
      assert t == d + s;
    } else {
      assert t[0] == sign[0] && t[1..] == d + s;
    }
    hide ValueOf;
  }

  lemma {:induction false} DigitsUpTo(d: string, s: string)
    requires AllDigits(d) && (s == "" || !IsDigit(s[0]))
    ensures Digits(d + s) == |d|
  {
    if d == "" {
      assert d + s == s;
    } else {
      assert (d + s)[1..] == d[1..] + s;
      DigitsUpTo(d[1..], s);
    }
  }

  /** Where a word, a number or a character is wanted and something else is there, scanning stops. */
  lemma ScanStops(s: string, g: Format, c: char)
    requires s == "" || !IsBlank(s[0])
    ensures (s == "" || !IsLetter(s[0])) ==> Scan(s, Then(Word, g)) == Stop(s)
    ensures s == "" || !(IsDigit(s[0]) || s[0] == '-' || s[0] == '+') ==>
              Scan(s, Then(Integer, g)) == Stop(s) && Scan(s, Then(Unsigned, g)) == Stop(s)
    ensures (s == "" || s[0] != c) ==> Scan(s, Then(Literal(c), g)) == Stop(s)
  {
  }

  lemma ScanLiteral(c: char, s: string, g: Format)
    ensures Scan([c] + s, Then(Literal(c), g)) == Scan(s, g)
  {
    assert ([c] + s)[1..] == s;
  }
}

/** Date ranges of a time period: how they are printed and how a line is read back. */
module DateRanges {
  import opened Arithmetic
  import opened Collections
  import opened Scanning

  // ----- data

  datatype Range = Range(start: nat, end: nat)

  /** The forms of a date range, each with the fields it uses. */
  datatype Dates =
    | CalendarDate(syear: int, smon: int, smday: int, eyear: int, emon: int, emday: int)
    | MonthDate(smon: int, smday: int, emon: int, emday: int)
    | MonthDay(smday: int, emday: int)
    | MonthWeekDay(swday: int, soffset: int, smon: int, ewday: int, eoffset: int, emon: int)
    | WeekDay(swday: int, soffset: int, ewday: int, eoffset: int)

  datatype Daterange = Daterange(dates: Dates, skip: int, ranges: seq<Range>)

  const DAYS := ["sunday", "monday", "tuesday", "wednesday", "thursday", "friday", "saturday"]
  const MONTHS := ["january", "february", "march", "april", "may", "june", "july", "august", "september",
                   "october", "november", "december"]
  const DAY := "day"

  function IndexOf(names: seq<string>, name: string): (i: int)
    ensures -1 <= i < |names| && (i >= 0 ==> names[i] == name)
    ensures i == -1 ==> name !in names
  {
    if names == [] then -1 else if names[0] == name then 0
    else var i := IndexOf(names[1..], name); if i == -1 then -1 else i + 1
  }

  /** The number of a day of the week or of a month, or -1. */
  function DayId(name: string): int {
    IndexOf(DAYS, name)
  }

  function MonthId(name: string): int {
    IndexOf(MONTHS, name)
  }

  function DayName(i: int): string
    requires 0 <= i < 7
  {
    DAYS[i]
  }

  function MonthName(i: int): string
    requires 0 <= i < 12
  {
    MONTHS[i]
  }

  // ----- reading

  const SKIP: Format := Then(Blank, Then(Literal('/'), Then(Blank, Then(Unsigned, END))))
  const END: Format := Then(Blank, End)

  function Dash(f: Format): Format {
    Then(Literal('-'), Then(Blank, f))
  }

  function Numbered(f: Format): Format {
    Then(Word, Then(Blank, Then(Integer, f)))
  }

  /** What the eight patterns have after their first word and number, in the order they are tried. */
  function Tail(k: nat): Format {
    match k
    case 1 => Then(Blank, Then(Word, Then(Blank, Dash(Numbered(Then(Blank, Then(Word, SKIP)))))))
    case 2 => Then(Blank, Dash(Numbered(SKIP)))
    case 3 => Then(Blank, Dash(Then(Integer, SKIP)))
    case 4 => Then(Blank, Then(Word, Then(Blank, Dash(Numbered(Then(Blank, Then(Word, END)))))))
    case 5 => Then(Blank, Dash(Then(Integer, END)))
    case 6 => Then(Blank, Dash(Numbered(END)))
    case 7 => Then(Blank, Then(Word, END))
    case _ => END
  }

  function Text(r: Scanned, k: nat): string {
    if k < |r.values| && r.values[k].Text? then r.values[k].s else ""
  }

  function Num(r: Scanned, k: nat): int {
    if k < |r.values| && r.values[k].Number? then r.values[k].n else 0
  }

  datatype Found = None | Found(dates: Dates, skip: int, left: string)

  /** A range from one named date to another: days of the week, days of months, or days of any month. */
  function Between(a: string, m: int, b: string, n: int, skip: int, left: string): Found {
    if DayId(a) != -1 && DayId(b) != -1 then Found(WeekDay(DayId(a), m, DayId(b), n), skip, left)
    else if MonthId(a) != -1 && MonthId(b) != -1 then
      Found(MonthDate(MonthId(a), m, MonthId(b), n), skip, left)
    else if a == DAY && b == DAY then Found(MonthDay(m, n), skip, left)
    else None
  }

  function WeekDayOfMonth(a: string, m: int, b: string, c: string, n: int, d: string, skip: int, left: string): Found {
    if DayId(a) != -1 && MonthId(b) != -1 && DayId(c) != -1 && MonthId(d) != -1 then
      Found(MonthWeekDay(DayId(a), m, MonthId(b), DayId(c), n, MonthId(d)), skip, left)
    else None
  }

  /** The first pattern that yields all its values decides, even if its names are not known. */
  function Choose(r1: Scanned, r2: Scanned, r3: Scanned, r4: Scanned, r5: Scanned, r6: Scanned, r7: Scanned,
                  r8: Scanned): Found {
    if |r1.values| == 7 then
      WeekDayOfMonth(Text(r1, 0), Num(r1, 1), Text(r1, 2), Text(r1, 3), Num(r1, 4), Text(r1, 5),
                     ToInt32(Num(r1, 6)), r1.left)
    else if |r2.values| == 5 then
      Between(Text(r2, 0), Num(r2, 1), Text(r2, 2), Num(r2, 3), ToInt32(Num(r2, 4)), r2.left)
    else if |r3.values| == 4 then
      Between(Text(r3, 0), Num(r3, 1), Text(r3, 0), Num(r3, 2), ToInt32(Num(r3, 3)), r3.left)
    else if |r4.values| == 6 then
      WeekDayOfMonth(Text(r4, 0), Num(r4, 1), Text(r4, 2), Text(r4, 3), Num(r4, 4), Text(r4, 5), 0, r4.left)
    else if |r5.values| == 3 then
      Between(Text(r5, 0), Num(r5, 1), Text(r5, 0), Num(r5, 2), 0, r5.left)
    else if |r6.values| == 4 then
      Between(Text(r6, 0), Num(r6, 1), Text(r6, 2), Num(r6, 3), 0, r6.left)
    else if |r7.values| == 3 then
      WeekDayOfMonth(Text(r7, 0), Num(r7, 1), Text(r7, 2), Text(r7, 0), Num(r7, 1), Text(r7, 2), 0, r7.left)
    else if |r8.values| == 2 then
      Between(Text(r8, 0), Num(r8, 1), Text(r8, 0), Num(r8, 1), 0, r8.left)
    else None
  }

  function Try(line: string, k: nat): Scanned {
    Scan(line, Numbered(Tail(k)))
  }

  function Read(line: string): Found {
    Choose(Try(line, 1), Try(line, 2), Try(line, 3), Try(line, 4), Try(line, 5), Try(line, 6), Try(line, 7),
      Try(line, 8))
  }

  /** Only names of the same kind make a range. */
  lemma NamesMustMatch(a: string, m: int, b: string, n: int, skip: int, left: string)
    ensures Between(a, m, b, n, skip, left) == None <==>
            !(a in DAYS && b in DAYS) && !(a in MONTHS && b in MONTHS) && !(a == DAY && b == DAY)
  {
    hide Between;
    NamedIff(DAYS, a);
    NamedIff(DAYS, b);
    NamedIff(MONTHS, a);
    NamedIff(MONTHS, b);
    BetweenNone(a, m, b, n, skip, left);
  }

  lemma NamedIff(names: seq<string>, name: string)
    ensures IndexOf(names, name) != -1 <==> name in names
  {
  }

  lemma BetweenNone(a: string, m: int, b: string, n: int, skip: int, left: string)
    ensures Between(a, m, b, n, skip, left) == None <==>
            (DayId(a) == -1 || DayId(b) == -1) && (MonthId(a) == -1 || MonthId(b) == -1) && !(a == DAY && b == DAY)
  {
    hide DayId, MonthId;
  }

  // ----- names

  /** A name is known by its length, its first and its third letter. */
  function Key(name: string): (nat, char, char)
    requires |name| >= 3
  {
    (|name|, name[0], name[2])
  }

  function DayKey(i: nat): (nat, char, char) {
    match i
    case 0 => (6, 's', 'n') case 1 => (6, 'm', 'n') case 2 => (7, 't', 'e') case 3 => (9, 'w', 'd')
    case 4 => (8, 't', 'u') case 5 => (6, 'f', 'i') case _ => (8, 's', 't')
  }

  function MonthKey(i: nat): (nat, char, char) {
    match i
    case 0 => (7, 'j', 'n') case 1 => (8, 'f', 'b') case 2 => (5, 'm', 'r') case 3 => (5, 'a', 'r')
    case 4 => (3, 'm', 'y') case 5 => (4, 'j', 'n') case 6 => (4, 'j', 'l') case 7 => (6, 'a', 'g')
    case 8 => (9, 's', 'p') case 9 => (7, 'o', 't') case 10 => (8, 'n', 'v') case _ => (8, 'd', 'c')
  }

  lemma DayNamed(i: nat)
    requires i < 7
    ensures AllLetters(DAYS[i]) && Named(DAYS[i], DayKey(i))
  {
  }

  lemma MonthNamed(i: nat)
    requires i < 12
    ensures AllLetters(MONTHS[i]) && Named(MONTHS[i], MonthKey(i))
  {
  }

  lemma {:induction false} IndexOfNth(names: seq<string>, i: nat)
    requires i < |names| && forall j, k :: 0 <= j < k < |names| ==> names[j] != names[k]
    ensures IndexOf(names, names[i]) == i
  {
    if i > 0 {
      IndexOfNth(names[1..], i - 1);
    }
  }

  predicate Named(name: string, key: (nat, char, char)) {
    |name| >= 3 && Key(name) == key
  }

  predicate Calendar(days: seq<string>, months: seq<string>) {
    |days| == 7 && |months| == 12 &&
    (forall k :: 0 <= k < 7 ==> Named(days[k], DayKey(k))) &&
    (forall k :: 0 <= k < 12 ==> Named(months[k], MonthKey(k)))
  }

  lemma KeysDiffer()
    ensures forall j: nat, k: nat :: j < k < 7 ==> DayKey(j) != DayKey(k)
    ensures forall j: nat, k: nat :: j < k < 12 ==> MonthKey(j) != MonthKey(k)
    ensures forall j: nat, k: nat :: j < 7 && k < 12 ==> DayKey(j) != MonthKey(k)
    ensures forall j: nat :: j < 7 ==> DayKey(j) != (3, 'd', 'y')
    ensures forall k: nat :: k < 12 ==> MonthKey(k) != (3, 'd', 'y')
  {
  }

  /** No name is taken for another. */
  lemma NamesDiffer(days: seq<string>, months: seq<string>)
    requires Calendar(days, months)
    ensures forall j, k :: 0 <= j < k < 7 ==> days[j] != days[k]
    ensures forall j, k :: 0 <= j < k < 12 ==> months[j] != months[k]
    ensures forall j, k :: 0 <= j < 7 && 0 <= k < 12 ==> days[j] != months[k]
    ensures forall j :: 0 <= j < 7 ==> !Named(days[j], (3, 'd', 'y'))
    ensures forall k :: 0 <= k < 12 ==> !Named(months[k], (3, 'd', 'y'))
  {
    KeysDiffer();
    hide DayKey, MonthKey, Key;
    forall j: nat, k: nat | j < k < 7 ensures days[j] != days[k] {
      assert Named(days[j], DayKey(j)) && Named(days[k], DayKey(k));
    }
    forall j: nat, k: nat | j < k < 12 ensures months[j] != months[k] {
      assert Named(months[j], MonthKey(j)) && Named(months[k], MonthKey(k));
    }
    forall j: nat, k: nat | j < 7 && k < 12 ensures days[j] != months[k] {
      assert Named(days[j], DayKey(j)) && Named(months[k], MonthKey(k));
    }
    forall j: nat | j < 7 ensures !Named(days[j], (3, 'd', 'y')) {
      assert Named(days[j], DayKey(j));
    }
    forall k: nat | k < 12 ensures !Named(months[k], (3, 'd', 'y')) {
      assert Named(months[k], MonthKey(k));
    }
  }

  lemma CalendarIsNamed()
    ensures Calendar(DAYS, MONTHS)
  {
    hide Named;
    forall k: nat | k < 7 ensures Named(DAYS[k], DayKey(k)) {
      DayNamed(k);
    }
    forall k: nat | k < 12 ensures Named(MONTHS[k], MonthKey(k)) {
      MonthNamed(k);
    }
  }

  lemma KnownIn(days: seq<string>, months: seq<string>, i: nat)
    requires Calendar(days, months)
    ensures i < 7 ==> IndexOf(days, days[i]) == i && IndexOf(months, days[i]) == -1 && !Named(days[i], (3, 'd', 'y'))
    ensures i < 12 ==>
              IndexOf(months, months[i]) == i && IndexOf(days, months[i]) == -1 && !Named(months[i], (3, 'd', 'y'))
  {
    NamesDiffer(days, months);
    if i < 7 {
      IndexOfNth(days, i);
    }
    if i < 12 {
      IndexOfNth(months, i);
    }
  }

  predicate IsWord(w: string) {
    w != "" && AllLetters(w)
  }

  lemma DayKnown(i: int)
    requires 0 <= i < 7
    ensures var w := DayName(i); IsWord(w) && DayId(w) == i && MonthId(w) == -1 && w != DAY
  {
    CalendarIsNamed();
    KnownIn(DAYS, MONTHS, i);
    DayNamed(i);
    AnyDay();
    hide IndexOf, Calendar;
  }

  lemma MonthKnown(i: int)
    requires 0 <= i < 12
    ensures var w := MonthName(i); IsWord(w) && MonthId(w) == i && DayId(w) == -1 && w != DAY
  {
    CalendarIsNamed();
    KnownIn(DAYS, MONTHS, i);
    MonthNamed(i);
    AnyDay();
    hide IndexOf, Calendar;
  }

  lemma AnyDay()
    ensures IsWord(DAY) && Named(DAY, (3, 'd', 'y'))
  {
  }

  lemma AnyDayKnown()
    ensures IsWord(DAY) && DayId(DAY) == -1 && MonthId(DAY) == -1
  {
    AnyDay();
    CalendarIsNamed();
    NamesDiffer(DAYS, MONTHS);
    hide Named, Calendar;
    assert DAY !in DAYS;
    assert DAY !in MONTHS;
  }

  // ----- lines as they are printed

  /** A name and a number, and what comes after. */
  function Phrase(w: string, n: int, rest: string): string {
    w + (" " + (Signed(n) + rest))
  }

  /** The interval to skip, if any, and the text of the time ranges. */
  function Close(skip: int, t: string): string {
    if skip == 0 then " " + t else " " + ("/" + (" " + (Signed(skip) + (" " + t))))
  }

  function Until(rest: string): string {
    " " + ("-" + (" " + rest))
  }

  predicate IsInt32(n: int) {
    -0x8000_0000 <= n < 0x8000_0000
  }

  /** The text of time ranges is empty or starts with a digit. */
  predicate IsRanges(t: string) {
    t == "" || IsDigit(t[0])
  }

  lemma ScanPhrase(w: string, n: int, rest: string, g: Format)
    requires IsWord(w) && IsInt32(n) && Apart(rest)
    ensures Scan(Phrase(w, n, rest), Numbered(g)) == Got(Value.Text(w), Got(Number(n), Scan(rest, g)))
  {
    var s := Signed(n) + rest;
    ScanWord(w, " " + s, Then(Blank, Then(Integer, g)));
    SignedStarts(n, rest);
    ScanBlank(s, Then(Integer, g));
    ScanInteger(n, rest, g);
  }

  lemma ScanUntil(rest: string, g: Format)
    requires rest != "" && !IsBlank(rest[0])
    ensures Scan(Until(rest), Then(Blank, Dash(g))) == Scan(rest, g)
  {
    ScanBlank("-" + (" " + rest), Dash(g));
    ScanLiteral('-', " " + rest, Then(Blank, g));
    ScanBlank(rest, g);
  }

  lemma ScanEnd(t: string)
    requires IsRanges(t)
    ensures Scan(" " + t, END) == Stop(t) && Scan(" " + t, SKIP) == Stop(t)
  {
    ScanBlank(t, End);
    ScanBlank(t, Then(Literal('/'), Then(Blank, Then(Unsigned, END))));
  }

  lemma ScanSkip(skip: int, t: string)
    requires IsRanges(t) && skip != 0
    ensures Scan(Close(skip, t), SKIP) == Got(Number(ToUint32(skip)), Stop(t))
  {
    var s := Signed(skip) + (" " + t);
    SignedStarts(skip, " " + t);
    ScanBlank("/" + (" " + s), Then(Literal('/'), Then(Blank, Then(Unsigned, END))));
    ScanLiteral('/', " " + s, Then(Blank, Then(Unsigned, END)));
    ScanBlank(s, Then(Unsigned, END));
    ScanUnsigned(skip, " " + t, END);
    ScanEnd(t);
  }

  /** What a pattern makes of a phrase is decided by what comes after. */
  function Begun(w: string, n: int, r: Scanned): Scanned {
    Got(Value.Text(w), Got(Number(n), r))
  }

  lemma TryPhrase(w: string, n: int, rest: string, k: nat)
    requires IsWord(w) && IsInt32(n) && Apart(rest)
    ensures Try(Phrase(w, n, rest), k) == Begun(w, n, Scan(rest, Tail(k)))
  {
    ScanPhrase(w, n, rest, Tail(k));
  }

  /** How many values a pattern yields. */
  function Yield(line: string, k: nat): nat {
    |Try(line, k).values|
  }

  lemma ReadFirst(line: string, w: string, n: int, a: string, b: string, m: int, c: string, skip: int, t: string)
    requires IsInt32(skip)
    requires Try(line, 1) ==
             Begun(w, n, Got(Value.Text(a), Begun(b, m, Got(Value.Text(c), Got(Number(ToUint32(skip)), Stop(t))))))
    ensures Read(line) == WeekDayOfMonth(w, n, a, b, m, c, skip, t)
  {
    hide Try, Between, WeekDayOfMonth;
    SkipBack(skip);
  }

  lemma ReadSecond(line: string, w: string, n: int, b: string, m: int, skip: int, t: string)
    requires IsInt32(skip) && Yield(line, 1) != 7
    requires Try(line, 2) == Begun(w, n, Begun(b, m, Got(Number(ToUint32(skip)), Stop(t))))
    ensures Read(line) == Between(w, n, b, m, skip, t)
  {
    hide Try, Between, WeekDayOfMonth;
    SkipBack(skip);
  }

  lemma ReadThird(line: string, w: string, n: int, m: int, skip: int, t: string)
    requires IsInt32(skip) && Yield(line, 1) != 7 && Yield(line, 2) != 5
    requires Try(line, 3) == Begun(w, n, Got(Number(m), Got(Number(ToUint32(skip)), Stop(t))))
    ensures Read(line) == Between(w, n, w, m, skip, t)
  {
    hide Try, Between, WeekDayOfMonth;
    SkipBack(skip);
  }

  lemma ReadFourth(line: string, w: string, n: int, a: string, b: string, m: int, c: string, t: string)
    requires Yield(line, 1) != 7 && Yield(line, 2) != 5 && Yield(line, 3) != 4
    requires Try(line, 4) == Begun(w, n, Got(Value.Text(a), Begun(b, m, Got(Value.Text(c), Stop(t)))))
    ensures Read(line) == WeekDayOfMonth(w, n, a, b, m, c, 0, t)
  {
    hide Try, Between, WeekDayOfMonth;
  }

  lemma ReadFifth(line: string, w: string, n: int, m: int, t: string)
    requires Yield(line, 1) != 7 && Yield(line, 2) != 5 && Yield(line, 3) != 4 && Yield(line, 4) != 6
    requires Try(line, 5) == Begun(w, n, Got(Number(m), Stop(t)))
    ensures Read(line) == Between(w, n, w, m, 0, t)
  {
    hide Try, Between, WeekDayOfMonth;
  }

  lemma ReadSixth(line: string, w: string, n: int, b: string, m: int, t: string)
    requires Yield(line, 1) != 7 && Yield(line, 2) != 5 && Yield(line, 3) != 4
    requires Yield(line, 4) != 6 && Yield(line, 5) != 3
    requires Try(line, 6) == Begun(w, n, Begun(b, m, Stop(t)))
    ensures Read(line) == Between(w, n, b, m, 0, t)
  {
    hide Try, Between, WeekDayOfMonth;
  }

  lemma ReadSeventh(line: string, w: string, n: int, a: string, t: string)
    requires Yield(line, 1) != 7 && Yield(line, 2) != 5 && Yield(line, 3) != 4
    requires Yield(line, 4) != 6 && Yield(line, 5) != 3
    requires Yield(line, 6) != 4 && Try(line, 7) == Begun(w, n, Got(Value.Text(a), Stop(t)))
    ensures Read(line) == WeekDayOfMonth(w, n, a, w, n, a, 0, t)
  {
    hide Try, Between, WeekDayOfMonth;
  }

  lemma SkipBack(skip: int)
    requires IsInt32(skip)
    ensures ToInt32(ToUint32(skip)) == skip
  {
  }

  lemma ReadEighth(line: string, w: string, n: int, t: string)
    requires Yield(line, 1) == Yield(line, 2) == Yield(line, 3) == Yield(line, 4) == 2
    requires Yield(line, 5) == Yield(line, 6) == Yield(line, 7) == 2 && Try(line, 8) == Begun(w, n, Stop(t))
    ensures Read(line) == Between(w, n, w, n, 0, t)
  {
    hide Try, Between, WeekDayOfMonth;
  }

  lemma TryPlain(w: string, n: int, x: string, k: nat)
    requires IsWord(w) && IsInt32(n) && (x == "" || !(IsLetter(x[0]) || x[0] == '-' || IsBlank(x[0])))
    ensures Try(Phrase(w, n, " " + x), k) == Begun(w, n, Stop(x)) && Yield(Phrase(w, n, " " + x), k) == 2
  {
    hide Scan, Phrase;
    TryPhrase(w, n, " " + x, k);
    PlainTail(x, k);
  }

  /** After a name and a number, something that is no word and no dash: only the last pattern matches. */
  lemma ReadPlain(w: string, n: int, x: string)
    requires IsWord(w) && IsInt32(n) && (x == "" || !(IsLetter(x[0]) || x[0] == '-' || IsBlank(x[0])))
    ensures Read(Phrase(w, n, " " + x)) == Between(w, n, w, n, 0, x)
  {
    hide Phrase, Try, Yield, Read, Between, Begun;
    TryPlain(w, n, x, 1);
    TryPlain(w, n, x, 2);
    TryPlain(w, n, x, 3);
    TryPlain(w, n, x, 4);
    TryPlain(w, n, x, 5);
    TryPlain(w, n, x, 6);
    TryPlain(w, n, x, 7);
    TryPlain(w, n, x, 8);
    ReadEighth(Phrase(w, n, " " + x), w, n, x);
  }

  lemma PlainTail(x: string, k: nat)
    requires x == "" || !(IsLetter(x[0]) || x[0] == '-' || IsBlank(x[0]))
    ensures Scan(" " + x, Tail(k)) == Stop(x)
  {
    ScanBlank(x, Tail(k).rest);
  }

  // A dash and what may follow it.

  /** A pattern that wants a word there yields nothing more. */
  lemma DashNoWord(y: string, g: Format)
    requires g.Then? && g.first.Word?
    ensures Scan(Until(y), Then(Blank, g)).values == []
  {
    ScanBlank("-" + (" " + y), g);
  }

  lemma NumberIsNoWord(m: int, rest: string, g: Format)
    ensures Scan(Until(Signed(m) + rest), Then(Blank, Dash(Numbered(g)))).values == []
  {
    SignedStarts(m, rest);
    ScanUntil(Signed(m) + rest, Numbered(g));
  }

  lemma DashNumber(m: int, rest: string, g: Format)
    requires IsInt32(m) && Apart(rest)
    ensures Scan(Until(Signed(m) + rest), Then(Blank, Dash(Then(Integer, g)))) == Got(Number(m), Scan(rest, g))
  {
    SignedStarts(m, rest);
    ScanUntil(Signed(m) + rest, Then(Integer, g));
    ScanInteger(m, rest, g);
  }

  lemma WordIsNoNumber(b: string, m: int, rest: string, g: Format)
    requires IsWord(b)
    ensures Scan(Until(Phrase(b, m, rest)), Then(Blank, Dash(Then(Integer, g)))).values == []
  {
    var y := Phrase(b, m, rest);
    assert y[0] == b[0];
    ScanUntil(y, Then(Integer, g));
  }

  lemma DashPhrase(b: string, m: int, rest: string, g: Format)
    requires IsWord(b) && IsInt32(m) && Apart(rest)
    ensures Scan(Until(Phrase(b, m, rest)), Then(Blank, Dash(Numbered(g)))) == Begun(b, m, Scan(rest, g))
  {
    var y := Phrase(b, m, rest);
    assert y[0] == b[0];
    ScanUntil(y, Numbered(g));
    ScanPhrase(b, m, rest, g);
  }

  /** A number after a dash: the third pattern with an interval to skip, the fifth without. */
  lemma ReadToNumber(w: string, n: int, m: int, skip: int, t: string)
    requires IsWord(w) && IsInt32(n) && IsInt32(m) && IsInt32(skip) && IsRanges(t)
    ensures Read(Phrase(w, n, Until(Signed(m) + Close(skip, t)))) == Between(w, n, w, m, skip, t)
  {
    hide Phrase, Try, Scan, Close, Until, Signed, Read, Between;
    var close := Close(skip, t);
    CloseIsApart(skip, t);
    var rest := Until(Signed(m) + close);
    UntilIsApart(Signed(m) + close);
    var line := Phrase(w, n, rest);
    TryPhrase(w, n, rest, 1);
    DashNoWord(Signed(m) + close, Tail(1).rest);
    TryPhrase(w, n, rest, 2);
    NumberIsNoWord(m, close, SKIP);
    TryPhrase(w, n, rest, 3);
    DashNumber(m, close, SKIP);
    if skip != 0 {
      ScanSkip(skip, t);
      ReadThird(line, w, n, m, skip, t);
    } else {
      ScanNoSkip(t);
      TryPhrase(w, n, rest, 4);
      DashNoWord(Signed(m) + close, Tail(4).rest);
      TryPhrase(w, n, rest, 5);
      DashNumber(m, close, END);
      ReadFifth(line, w, n, m, t);
    }
  }

  lemma ScanNoSkip(t: string)
    requires IsRanges(t)
    ensures Scan(Close(0, t), END) == Stop(t) && Scan(Close(0, t), SKIP) == Stop(t)
  {
    ScanEnd(t);
  }

  lemma CloseIsApart(skip: int, t: string)
    ensures Apart(Close(skip, t))
  {
  }

  lemma UntilIsApart(y: string)
    ensures Apart(Until(y))
  {
  }

  /** A name and a number after a dash: the second pattern with an interval to skip, the sixth without. */
  lemma ReadToPhrase(w: string, n: int, b: string, m: int, skip: int, t: string)
    requires IsWord(w) && IsInt32(n) && IsWord(b) && IsInt32(m) && IsInt32(skip) && IsRanges(t)
    ensures Read(Phrase(w, n, Until(Phrase(b, m, Close(skip, t))))) == Between(w, n, b, m, skip, t)
  {
    hide Phrase, Try, Scan, Close, Until, Signed, Read, Between;
    var close := Close(skip, t);
    CloseIsApart(skip, t);
    var y := Phrase(b, m, close);
    var rest := Until(y);
    UntilIsApart(y);
    var line := Phrase(w, n, rest);
    TryPhrase(w, n, rest, 1);
    DashNoWord(y, Tail(1).rest);
    TryPhrase(w, n, rest, 2);
    DashPhrase(b, m, close, SKIP);
    if skip != 0 {
      ScanSkip(skip, t);
      ReadSecond(line, w, n, b, m, skip, t);
    } else {
      ScanNoSkip(t);
      TryPhrase(w, n, rest, 3);
      WordIsNoNumber(b, m, close, SKIP);
      TryPhrase(w, n, rest, 4);
      DashNoWord(y, Tail(4).rest);
      TryPhrase(w, n, rest, 5);
      WordIsNoNumber(b, m, close, END);
      TryPhrase(w, n, rest, 6);
      DashPhrase(b, m, close, END);
      ReadSixth(line, w, n, b, m, t);
    }
  }

  // A word after the number.

  lemma SpaceWord(c: string, rest: string, g: Format)
    requires IsWord(c) && Apart(rest)
    ensures Scan(" " + (c + rest), Then(Blank, Then(Word, g))) == Got(Value.Text(c), Scan(rest, g))
  {
    assert (c + rest)[0] == c[0];
    ScanBlank(c + rest, Then(Word, g));
    ScanWord(c, rest, g);
  }

  lemma WordIsNoDash(c: string, rest: string, g: Format)
    requires IsWord(c)
    ensures Scan(" " + (c + rest), Then(Blank, Dash(g))).values == []
  {
    assert (c + rest)[0] == c[0];
    ScanBlank(c + rest, Dash(g));
  }

  lemma RangesAreNoDash(t: string, g: Format)
    requires IsRanges(t)
    ensures Scan(" " + t, Then(Blank, Dash(g))).values == []
  {
    ScanBlank(t, Dash(g));
  }

  const OTHER: Format := Numbered(Then(Blank, Then(Word, SKIP)))
  const OTHER_END: Format := Numbered(Then(Blank, Then(Word, END)))

  lemma ReadMonth(w: string, n: int, a: string, t: string)
    requires IsWord(w) && IsInt32(n) && IsWord(a) && IsRanges(t)
    ensures Read(Phrase(w, n, " " + (a + (" " + t)))) == WeekDayOfMonth(w, n, a, w, n, a, 0, t)
  {
    hide Phrase, Try, Scan, Read, WeekDayOfMonth;
    var rest := " " + (a + (" " + t));
    var line := Phrase(w, n, rest);
    TryPhrase(w, n, rest, 1);
    SpaceWord(a, " " + t, Then(Blank, Dash(OTHER)));
    RangesAreNoDash(t, OTHER);
    TryPhrase(w, n, rest, 2);
    WordIsNoDash(a, " " + t, Numbered(SKIP));
    TryPhrase(w, n, rest, 3);
    WordIsNoDash(a, " " + t, Then(Integer, SKIP));
    TryPhrase(w, n, rest, 4);
    SpaceWord(a, " " + t, Then(Blank, Dash(OTHER_END)));
    RangesAreNoDash(t, OTHER_END);
    TryPhrase(w, n, rest, 5);
    WordIsNoDash(a, " " + t, Then(Integer, END));
    TryPhrase(w, n, rest, 6);
    WordIsNoDash(a, " " + t, Numbered(END));
    TryPhrase(w, n, rest, 7);
    SpaceWord(a, " " + t, END);
    ScanEnd(t);
    ReadSeventh(line, w, n, a, t);
  }

  lemma ReadMonths(w: string, n: int, a: string, b: string, m: int, c: string, t: string)
    requires IsWord(w) && IsInt32(n) && IsWord(a) && IsWord(b) && IsInt32(m) && IsWord(c) && IsRanges(t)
    ensures Read(Phrase(w, n, " " + (a + Until(Phrase(b, m, " " + (c + (" " + t))))))) ==
            WeekDayOfMonth(w, n, a, b, m, c, 0, t)
  {
    hide Phrase, Try, Scan, Read, WeekDayOfMonth, Until;
    var last := " " + (c + (" " + t));
    var y := Until(Phrase(b, m, last));
    UntilIsApart(Phrase(b, m, last));
    var rest := " " + (a + y);
    var line := Phrase(w, n, rest);
    TryPhrase(w, n, rest, 1);
    SpaceWord(a, y, Then(Blank, Dash(OTHER)));
    DashPhrase(b, m, last, Then(Blank, Then(Word, SKIP)));
    SpaceWord(c, " " + t, SKIP);
    TryPhrase(w, n, rest, 2);
    WordIsNoDash(a, y, Numbered(SKIP));
    TryPhrase(w, n, rest, 3);
    WordIsNoDash(a, y, Then(Integer, SKIP));
    TryPhrase(w, n, rest, 4);
    SpaceWord(a, y, Then(Blank, Dash(OTHER_END)));
    DashPhrase(b, m, last, Then(Blank, Then(Word, END)));
    SpaceWord(c, " " + t, END);
    ScanEnd(t);
    ReadFourth(line, w, n, a, b, m, c, t);
  }

  /** The same with an interval to skip, which is read by the first pattern. */
  lemma ReadMonthsSkip(w: string, n: int, a: string, b: string, m: int, c: string, skip: int, t: string)
    requires IsWord(w) && IsInt32(n) && IsWord(a) && IsWord(b) && IsInt32(m) && IsWord(c) && IsRanges(t)
    requires IsInt32(skip) && skip != 0
    ensures Read(Phrase(w, n, " " + (a + Until(Phrase(b, m, " " + (c + Close(skip, t))))))) ==
            WeekDayOfMonth(w, n, a, b, m, c, skip, t)
  {
    hide Phrase, Try, Scan, Read, WeekDayOfMonth, Until, Close;
    var last := " " + (c + Close(skip, t));
    var y := Until(Phrase(b, m, last));
    UntilIsApart(Phrase(b, m, last));
    CloseIsApart(skip, t);
    var rest := " " + (a + y);
    TryPhrase(w, n, rest, 1);
    SpaceWord(a, y, Then(Blank, Dash(OTHER)));
    DashPhrase(b, m, last, Then(Blank, Then(Word, SKIP)));
    SpaceWord(c, Close(skip, t), SKIP);
    ScanSkip(skip, t);
    ReadFirst(Phrase(w, n, rest), w, n, a, b, m, c, skip, t);
  }

  // ----- time ranges

  function Split(s: string, c: char): (ps: seq<string>)
    ensures |ps| > 0
  {
    if s == "" then [""]
    else if s[0] == c then [""] + Split(s[1..], c)
    else var ps := Split(s[1..], c); [[s[0]] + ps[0]] + ps[1..]
  }

  function Joined(ps: seq<string>, c: char): string
    requires |ps| > 0
  {
    if |ps| == 1 then ps[0] else ps[0] + ([c] + Joined(ps[1..], c))
  }

  /** The pieces are what is between the separators, which are in none of them. */
  lemma {:induction false} SplitAtSeparators(s: string, c: char)
    ensures var ps := Split(s, c); Joined(ps, c) == s && forall k :: 0 <= k < |ps| ==> c !in ps[k]
  {
    if s != "" {
      SplitAtSeparators(s[1..], c);
      var ps, rest := Split(s, c), Split(s[1..], c);
      if s[0] == c {
        assert ps[1..] == rest;
        assert "" + ([c] + s[1..]) == s;
      } else {
        assert ps[1..] == rest[1..] && ps[0] == [s[0]] + rest[0];
        assert forall k :: 1 <= k < |ps| ==> ps[k] == rest[k];
        if |rest| == 1 {
          assert [s[0]] + s[1..] == s;
        } else {
          var tail := [c] + Joined(rest[1..], c);
          assert [s[0]] + rest[0] + tail == [s[0]] + (rest[0] + tail) == s;
        }
      }
    }
  }

  /** The first place of a character, or -1. */
  function Find(s: string, c: char): (k: int)
    ensures -1 <= k < |s| && (k >= 0 ==> s[k] == c)
  {
    if s == "" then -1 else if s[0] == c then 0 else var k := Find(s[1..], c); if k == -1 then -1 else k + 1
  }

  function Strip(s: string): (r: string)
    ensures |r| <= |s|
  {
    StripRight(SkipBlanks(s))
  }

  function StripRight(s: string): (r: string)
    ensures |r| <= |s|
  {
    if s == "" || !IsBlank(s[|s| - 1]) then s else StripRight(s[..|s| - 1])
  }

  const UINT64: int := 0x1_0000_0000_0000_0000

  /** Reads an unsigned 64-bit number, or gives -1. */
  function Atoi(s: string): int {
    var t := Strip(s);
    var u := if t != "" && t[0] == '+' then t[1..] else t;
    if u != "" && AllDigits(u) && ValueOf(u) < UINT64 then ValueOf(u) else -1
  }

  /** Seconds since midnight, in 64 bits. */
  function Clock(hours: nat, minutes: nat): nat {
    (hours * 3600 + minutes * 60) % UINT64
  }

  function ReadTime(s: string): int {
    var k := Find(s, ':');
    if k == -1 then -1 else
    var hours, minutes := Atoi(s[..k]), Atoi(s[k + 1..]);
    if hours < 0 || minutes < 0 then -1 else Clock(hours, minutes)
  }

  datatype MaybeRange = NoRange | SomeRange(range: Range)

  function ReadRange(s: string): MaybeRange {
    var t := Strip(s);
    var k := Find(t, '-');
    if k == -1 then NoRange else
    var start, end := ReadTime(t[..k]), ReadTime(t[k + 1..]);
    if start < 0 || end < 0 then NoRange else SomeRange(Range(start, end))
  }

  /** The ranges read before one that is not understood, and whether all were. */
  datatype Built = Built(ok: bool, ranges: seq<Range>)

  function ReadPieces(ps: seq<string>): Built {
    if ps == [] then Built(true, [])
    else match ReadRange(ps[0])
      case NoRange => Built(false, [])
      case SomeRange(r) => var b := ReadPieces(ps[1..]); Built(b.ok, [r] + b.ranges)
  }

  function ReadRanges(s: string): Built {
    ReadPieces(Split(s, ','))
  }

  // What it takes to be read as a range, for any text.

  lemma {:induction false} FindsFirst(s: string, c: char)
    ensures var k := Find(s, c); if k == -1 then c !in s else c !in s[..k]
  {
    if s != "" && s[0] != c {
      FindsFirst(s[1..], c);
      var k := Find(s[1..], c);
      assert s == [s[0]] + s[1..];
      if k >= 0 {
        assert s[..k + 1] == [s[0]] + s[1..][..k];
      }
    }
  }

  lemma {:induction false} StripRightIs(s: string)
    ensures var r := StripRight(s); r == s[..|r|] && AllBlank(s[|r|..]) && (r != "" ==> !IsBlank(r[|r| - 1]))
  {
    if s != "" && IsBlank(s[|s| - 1]) {
      var front := s[..|s| - 1];
      StripRightIs(front);
      var r := StripRight(front);
      assert s[|r|..] == front[|r|..] + [s[|s| - 1]];
    }
  }

  /** Nothing but blanks around core, which has none at its ends and is found at i. */
  predicate AroundAt(s: string, core: string, i: nat) {
    (core != "" ==> !IsBlank(core[0]) && !IsBlank(core[|core| - 1])) &&
    i + |core| <= |s| && s[i..i + |core|] == core && AllBlank(s[..i]) && AllBlank(s[i + |core|..])
  }

  ghost predicate Around(s: string, core: string) {
    exists i :: AroundAt(s, core, i)
  }

  lemma StripIsCore(s: string)
    ensures Around(s, Strip(s))
  {
    BlanksAre(s);
    StripRightIs(SkipBlanks(s));
    var t, r := SkipBlanks(s), Strip(s);
    var i := |s| - |t|;
    assert s[i..i + |r|] == r;
    assert r != "" ==> r[0] == t[0];
    assert s[i + |r|..] == t[|r|..];
    assert AroundAt(s, r, i);
  }

  lemma CoreIsUnique(s: string, a: string, b: string)
    requires Around(s, a) && Around(s, b)
    ensures a == b
  {
    hide AroundAt;
    var i :| AroundAt(s, a, i);
    var j :| AroundAt(s, b, j);
    Inside(s, a, i, b, j);
    Inside(s, b, j, a, i);
    if a != "" && b != "" {
      SamePlace(s, a, b, i, j);
    }
  }

  lemma SamePlace(s: string, a: string, b: string, i: nat, j: nat)
    requires AroundAt(s, a, i) && AroundAt(s, b, j) && i == j && |a| == |b|
    ensures a == b
  {
  }

  lemma Inside(s: string, a: string, i: nat, b: string, j: nat)
    requires AroundAt(s, a, i) && AroundAt(s, b, j)
    ensures a != "" ==> j <= i && i + |a| <= j + |b| && b != ""
  {
    forall k | 0 <= k < j ensures IsBlank(s[k]) {
      assert s[..j][k] == s[k];
    }
    forall k | j + |b| <= k < |s| ensures IsBlank(s[k]) {
      assert s[j + |b|..][k - (j + |b|)] == s[k];
    }
    if a != "" {
      assert a[0] == s[i] && a[|a| - 1] == s[i + |a| - 1];
    }
  }

  /** A number as text: digits, after a plus sign or not, of a value that fits 64 bits, between blanks or not. */
  ghost predicate Denotes(s: string, n: nat) {
    exists digits: string :: digits != "" && AllDigits(digits) && ValueOf(digits) == n < UINT64 &&
                             (Around(s, digits) || Around(s, "+" + digits))
  }

  lemma AtoiIff(s: string, n: nat)
    ensures Atoi(s) == n <==> Denotes(s, n)
  {
    var t := Strip(s);
    StripIsCore(s);
    if Atoi(s) == n {
      var u := if t != "" && t[0] == '+' then t[1..] else t;
      assert t == u || t == "+" + u;
    }
    if Denotes(s, n) {
      var digits: string :| digits != "" && AllDigits(digits) && ValueOf(digits) == n < UINT64 &&
                            (Around(s, digits) || Around(s, "+" + digits));
      if Around(s, digits) {
        CoreIsUnique(s, t, digits);
        assert IsDigit(digits[0]);
      } else {
        CoreIsUnique(s, t, "+" + digits);
        assert ("+" + digits)[1..] == digits;
      }
    }
  }

  /** A time as text: hours, a colon and minutes. */
  ghost predicate IsTime(s: string, t: nat) {
    exists a: string, b: string, hours: nat, minutes: nat ::
      TimeParts(s, a, b, hours, minutes) && t == Clock(hours, minutes)
  }

  ghost predicate TimeParts(s: string, a: string, b: string, hours: nat, minutes: nat) {
    s == a + ([':'] + b) && ':' !in a && Denotes(a, hours) && Denotes(b, minutes)
  }

  lemma PartsFound(s: string, c: char, a: string, b: string)
    requires s == a + ([c] + b) && c !in a
    ensures Find(s, c) == |a| && a == s[..|a|] && b == s[|a| + 1..]
  {
    FindsFirst(s, c);
    var k := Find(s, c);
    assert s[|a|] == c;
    assert forall j :: 0 <= j < |a| ==> s[j] == a[j];
    forall j | 0 <= j < k ensures s[j] != c {
      assert s[..k][j] == s[j];
    }
  }

  lemma PartsOf(s: string, c: char)
    requires Find(s, c) >= 0
    ensures var k := Find(s, c); s == s[..k] + ([c] + s[k + 1..]) && c !in s[..k]
  {
    hide Find;
    FindsFirst(s, c);
  }

  lemma TimeReadIsTime(s: string)
    requires ReadTime(s) >= 0
    ensures IsTime(s, ReadTime(s))
  {
    var k := Find(s, ':');
    ReadTimeMeans(s);
    hide Atoi, Denotes, Find, ReadTime, Clock, IsTime, TimeParts;
    PartsOf(s, ':');
    PartsMakeTime(s, s[..k], s[k + 1..]);
  }

  lemma PartsMakeTime(s: string, a: string, b: string)
    requires s == a + ([':'] + b) && ':' !in a && Atoi(a) >= 0 && Atoi(b) >= 0
    ensures IsTime(s, Clock(Atoi(a), Atoi(b)))
  {
    hide Atoi, Denotes, Clock, IsTime;
    AtoiIff(a, Atoi(a));
    AtoiIff(b, Atoi(b));
    FromParts(s, a, b, Atoi(a), Atoi(b));
  }

  lemma FromParts(s: string, a: string, b: string, hours: nat, minutes: nat)
    requires s == a + ([':'] + b) && ':' !in a && Denotes(a, hours) && Denotes(b, minutes)
    ensures IsTime(s, Clock(hours, minutes))
  {
    hide Denotes, Clock;
    assert TimeParts(s, a, b, hours, minutes);
  }

  lemma ReadTimeMeans(s: string)
    requires ReadTime(s) >= 0
    ensures var k := Find(s, ':');
            k >= 0 && Atoi(s[..k]) >= 0 && Atoi(s[k + 1..]) >= 0 &&
            ReadTime(s) == Clock(Atoi(s[..k]), Atoi(s[k + 1..]))
  {
    hide Atoi, Find, Clock;
  }

  lemma TimeIsRead(s: string, t: nat)
    requires IsTime(s, t)
    ensures ReadTime(s) == t
  {
    hide Atoi, Denotes;
    hide Clock;
    var a, b, hours: nat, minutes: nat :| TimeParts(s, a, b, hours, minutes) && t == Clock(hours, minutes);
    PartsFound(s, ':', a, b);
    AtoiIff(a, hours);
    AtoiIff(b, minutes);
  }

  /** A range as text: two times with a dash between them, between blanks or not. */
  ghost predicate IsRange(s: string, r: Range) {
    exists a: string, b: string :: RangeParts(s, a, b) && IsTime(a, r.start) && IsTime(b, r.end)
  }

  ghost predicate RangeParts(s: string, a: string, b: string) {
    Around(s, a + (['-'] + b)) && '-' !in a
  }

  lemma RangeReadIsRange(s: string)
    requires ReadRange(s).SomeRange?
    ensures IsRange(s, ReadRange(s).range)
  {
    hide ReadTime, IsTime, Around, Strip;
    var t := Strip(s);
    StripIsCore(s);
    PartsOf(t, '-');
    var k := Find(t, '-');
    var a, b := t[..k], t[k + 1..];
    TimeReadIsTime(a);
    TimeReadIsTime(b);
    assert RangeParts(s, a, b);
  }

  lemma RangeIsRead(s: string, r: Range)
    requires IsRange(s, r)
    ensures ReadRange(s) == SomeRange(r)
  {
    hide ReadTime, IsTime, Around, Strip;
    var t := Strip(s);
    StripIsCore(s);
    var a, b :| RangeParts(s, a, b) && IsTime(a, r.start) && IsTime(b, r.end);
    CoreIsUnique(s, t, a + (['-'] + b));
    PartsFound(t, '-', a, b);
    TimeIsRead(a, r.start);
    TimeIsRead(b, r.end);
  }

  /** Exactly these texts are read as a range, and as that one; all others are not understood. */
  lemma ReadRangeIff(s: string, r: Range)
    ensures ReadRange(s) == SomeRange(r) <==> IsRange(s, r)
  {
    hide ReadRange, IsRange;
    if ReadRange(s) == SomeRange(r) {
      RangeReadIsRange(s);
    }
    if IsRange(s, r) {
      RangeIsRead(s, r);
    }
  }

  ghost predicate IsNoRange(s: string) {
    forall r :: !IsRange(s, r)
  }

  lemma NoRangeIff(s: string)
    ensures ReadRange(s).NoRange? <==> IsNoRange(s)
  {
    hide ReadRange, IsRange;
    forall r ensures ReadRange(s) == SomeRange(r) <==> IsRange(s, r) {
      ReadRangeIff(s, r);
    }
  }

  /** For any text: the ranges kept are those of the pieces between commas before the first that is no range, and
      all is well exactly if there is no such piece. */
  lemma {:induction false} ReadPiecesIs(ps: seq<string>)
    ensures var b := ReadPieces(ps);
            |b.ranges| <= |ps| && (b.ok <==> |b.ranges| == |ps|) &&
            (forall k :: 0 <= k < |b.ranges| ==> IsRange(ps[k], b.ranges[k])) &&
            (|b.ranges| < |ps| ==> IsNoRange(ps[|b.ranges|]))
  {
    hide ReadRange, IsRange, IsNoRange;
    if ps != [] {
      ReadPiecesIs(ps[1..]);
      NoRangeIff(ps[0]);
      if ReadRange(ps[0]).SomeRange? {
        RangeReadIsRange(ps[0]);
      }
    }
  }

  // How they are printed.

  function Padded(n: nat): string {
    if n < 10 then "0" + Decimal(n) else Decimal(n)
  }

  function TimeText(seconds: nat): string {
    Padded(seconds / 3600 % UINT32) + (":" + Padded(seconds % 3600 / 60))
  }

  function RangeText(r: Range): string {
    TimeText(r.start) + ("-" + TimeText(r.end))
  }

  /** The ranges one after the other, the first one after a given lead. */
  function RangesText(rs: seq<Range>, lead: string): string
    requires rs != []
  {
    lead + RangeText(rs[0]) + if |rs| == 1 then "" else "," + RangesText(rs[1..], " ")
  }

  /** What is left of a time: whole minutes, and hours that fit 32 bits. */
  function Kept(seconds: nat): nat {
    seconds / 3600 % UINT32 * 3600 + seconds % 3600 / 60 * 60
  }

  lemma KeptIff(seconds: nat)
    ensures Kept(seconds) == seconds <==> seconds % 60 == 0 && seconds / 3600 < UINT32
  {
    var h, r := seconds / 3600, seconds % 3600;
    assert r / 60 * 60 == r - r % 60 && seconds % 60 == r % 60;
  }

  /** Starts and ends with a digit. */
  predicate Tight(s: string) {
    s != "" && IsDigit(s[0]) && IsDigit(s[|s| - 1])
  }

  lemma StripTight(s: string)
    requires Tight(s)
    ensures Strip(s) == s && Strip(" " + s) == s
  {
    assert (" " + s)[1..] == s;
  }

  lemma PaddedIs(n: nat)
    ensures AllDigits(Padded(n)) && Tight(Padded(n)) && ValueOf(Padded(n)) == n
  {
    if n < 10 {
      var d := Decimal(n);
      assert d == [('0' as int + n % 10) as char];
      ValueOfSnoc("0", d[0]);
      ValueOfOne('0');
    }
  }

  lemma AtoiPadded(n: nat)
    requires n < UINT64
    ensures Atoi(Padded(n)) == n
  {
    PaddedIs(n);
    StripTight(Padded(n));
  }

  lemma {:induction false} FindAfter(a: string, c: char, b: string)
    requires c !in a
    ensures Find(a + ([c] + b), c) == |a|
  {
    var s := a + ([c] + b);
    if a == "" {
      assert s == [c] + b;
    } else {
      FindAfter(a[1..], c, b);
      assert s[1..] == a[1..] + ([c] + b) && s[0] == a[0];
    }
  }

  lemma DigitsHold(s: string, c: char)
    requires AllDigits(s) && !IsDigit(c)
    ensures c !in s
  {
  }

  lemma TimeTextIs(x: nat)
    ensures Tight(TimeText(x)) && '-' !in TimeText(x) && ',' !in TimeText(x)
  {
    var a, b := Padded(x / 3600 % UINT32), Padded(x % 3600 / 60);
    PaddedIs(x / 3600 % UINT32);
    PaddedIs(x % 3600 / 60);
    DigitsHold(a, '-');
    DigitsHold(a, ',');
    DigitsHold(b, '-');
    DigitsHold(b, ',');
    hide Padded;
  }

  lemma ReadTimeParts(a: string, b: string, h: nat, m: nat)
    requires ':' !in a && Atoi(a) == h && Atoi(b) == m
    ensures ReadTime(a + (":" + b)) == (h * 3600 + m * 60) % UINT64
  {
    hide Atoi;
    var s := a + (":" + b);
    FindAfter(a, ':', b);
    assert s[..|a|] == a && s[|a| + 1..] == b;
  }

  lemma ReadTimeText(x: nat)
    ensures ReadTime(TimeText(x)) == Kept(x)
  {
    hide Padded, Atoi, ReadTime;
    var h, m := x / 3600 % UINT32, x % 3600 / 60;
    PaddedIs(h);
    DigitsHold(Padded(h), ':');
    AtoiPadded(h);
    AtoiPadded(m);
    ReadTimeParts(Padded(h), Padded(m), h, m);
  }

  lemma RangeTextIs(r: Range)
    ensures Tight(RangeText(r)) && ',' !in RangeText(r)
  {
    TimeTextIs(r.start);
    TimeTextIs(r.end);
    hide TimeText;
  }

  lemma ReadRangeParts(s: string, a: string, b: string, start: nat, end: nat)
    requires Strip(s) == a + ("-" + b) && '-' !in a && ReadTime(a) == start && ReadTime(b) == end
    ensures ReadRange(s) == SomeRange(Range(start, end))
  {
    hide Strip, ReadTime;
    FindAfter(a, '-', b);
    var t := a + ("-" + b);
    assert t[..|a|] == a && t[|a| + 1..] == b;
  }

  lemma ReadRangeText(r: Range, lead: string)
    requires lead == "" || lead == " "
    ensures ReadRange(lead + RangeText(r)) == SomeRange(Range(Kept(r.start), Kept(r.end)))
  {
    hide TimeText, ReadTime, Kept, Strip, ReadRange, Tight;
    RangeTextIs(r);
    StripTight(RangeText(r));
    assert "" + RangeText(r) == RangeText(r);
    TimeTextIs(r.start);
    ReadTimeText(r.start);
    ReadTimeText(r.end);
    ReadRangeParts(lead + RangeText(r), TimeText(r.start), TimeText(r.end), Kept(r.start), Kept(r.end));
  }

  lemma {:induction false} SplitWhole(a: string, c: char)
    requires c !in a
    ensures Split(a, c) == [a]
  {
    if a != "" {
      SplitWhole(a[1..], c);
      assert [a[0]] + a[1..] == a;
    }
  }

  lemma {:induction false} SplitFirst(a: string, c: char, b: string)
    requires c !in a
    ensures Split(a + ([c] + b), c) == [a] + Split(b, c)
  {
    var s := a + ([c] + b);
    if a == "" {
      assert s == [c] + b && s[1..] == b;
    } else {
      SplitFirst(a[1..], c, b);
      assert s[1..] == a[1..] + ([c] + b) && s[0] == a[0];
      assert [a[0]] + a[1..] == a;
    }
  }

  function AllKept(rs: seq<Range>): seq<Range> {
    if rs == [] then [] else [Range(Kept(rs[0].start), Kept(rs[0].end))] + AllKept(rs[1..])
  }

  /** The text of time ranges is read back, up to what a text keeps of them. */
  lemma {:induction false} ReadRangesText(rs: seq<Range>, lead: string)
    requires rs != [] && (lead == "" || lead == " ")
    ensures ReadRanges(RangesText(rs, lead)) == Built(true, AllKept(rs))
  {
    hide RangeText, ReadRange, Kept;
    var a := lead + RangeText(rs[0]);
    RangeTextIs(rs[0]);
    ReadRangeText(rs[0], lead);
    if |rs| == 1 {
      assert RangesText(rs, lead) == a;
      SplitWhole(a, ',');
      assert [a][1..] == [] && rs[1..] == [];
      assert ReadPieces([]) == Built(true, []);
    } else {
      var more := RangesText(rs[1..], " ");
      assert RangesText(rs, lead) == a + ("," + more);
      SplitFirst(a, ',', more);
      ReadRangesText(rs[1..], " ");
      assert ([a] + Split(more, ','))[1..] == Split(more, ',');
    }
  }

  lemma {:induction false} AllKeptIff(rs: seq<Range>)
    ensures |AllKept(rs)| == |rs|
    ensures AllKept(rs) == rs <==>
            forall k :: 0 <= k < |rs| ==> Kept(rs[k].start) == rs[k].start && Kept(rs[k].end) == rs[k].end
  {
    hide Kept;
    if rs != [] {
      AllKeptIff(rs[1..]);
      var a, rest := Range(Kept(rs[0].start), Kept(rs[0].end)), AllKept(rs[1..]);
      assert rs == [rs[0]] + rs[1..];
      assert AllKept(rs)[0] == a && AllKept(rs)[1..] == rest;
      assert AllKept(rs) == rs <==> a == rs[0] && rest == rs[1..];
    }
  }

  // ----- printing and reading back

  predicate Numbers(d: Dates) {
    match d
    case CalendarDate(_, _, _, _, _, _) => true
    case MonthDate(smon, smday, emon, emday) => 0 <= smon < 12 && 0 <= emon < 12 && IsInt32(smday) && IsInt32(emday)
    case MonthDay(smday, emday) => IsInt32(smday) && IsInt32(emday)
    case MonthWeekDay(swday, soffset, smon, ewday, eoffset, emon) =>
      0 <= swday < 7 && 0 <= ewday < 7 && 0 <= smon < 12 && 0 <= emon < 12 && IsInt32(soffset) && IsInt32(eoffset)
    case WeekDay(swday, soffset, ewday, eoffset) =>
      0 <= swday < 7 && 0 <= ewday < 7 && IsInt32(soffset) && IsInt32(eoffset)
  }

  /** Names index tables and the numbers are those of 32-bit fields. */
  predicate Printable(dr: Daterange) {
    Numbers(dr.dates) && IsInt32(dr.skip)
  }

  datatype Line = Line(text: string) | FormatError

  function RangesOf(dr: Daterange): string {
    if dr.ranges == [] then "" else RangesText(dr.ranges, "")
  }

  /** A calendar date prints as nothing but its time ranges; a day of the week in a month with an interval
      to skip is a format that lacks an argument. */
  function Print(dr: Daterange): Line
    requires Printable(dr)
  {
    var t := RangesOf(dr);
    match dr.dates
    case CalendarDate(_, _, _, _, _, _) => Line(" " + t)
    case MonthDate(smon, smday, emon, emday) =>
      Line(Phrase(MonthName(smon), smday,
        if smon != emon then Until(Phrase(MonthName(emon), emday, Close(dr.skip, t)))
        else if smday != emday then Until(Signed(emday) + Close(dr.skip, t))
        else Close(dr.skip, t)))
    case MonthDay(smday, emday) =>
      Line(Phrase(DAY, smday, if smday != emday then Until(Signed(emday) + Close(dr.skip, t)) else Close(dr.skip, t)))
    case MonthWeekDay(swday, soffset, smon, ewday, eoffset, emon) =>
      if dr.skip != 0 then FormatError
      else if swday != ewday || soffset != eoffset || smon != emon then
        Line(Phrase(DayName(swday), soffset,
          " " + (MonthName(smon) + Until(Phrase(DayName(ewday), eoffset, " " + (MonthName(emon) + (" " + t)))))))
      else Line(Phrase(DayName(swday), soffset, " " + (MonthName(smon) + (" " + t))))
    case WeekDay(swday, soffset, ewday, eoffset) =>
      Line(Phrase(DayName(swday), soffset,
        if swday != ewday || soffset != eoffset then Until(Phrase(DayName(ewday), eoffset, Close(dr.skip, t)))
        else Close(dr.skip, t)))
  }

  datatype Added = Ignored | Added(ok: bool, daterange: Daterange)

  /** What a line adds to the time period, which may be a range whose time ranges were not understood. */
  function Parse(line: string): Added {
    if |line| > 1024 then Ignored
    else match Read(line)
      case None => Ignored
      case Found(dates, skip, left) => var b := ReadRanges(left); Added(b.ok, Daterange(dates, skip, b.ranges))
  }

  /** The range ends where it starts. */
  predicate Single(d: Dates) {
    match d
    case CalendarDate(sy, sm, sd, ey, em, ed) => sy == ey && sm == em && sd == ed
    case MonthDate(smon, smday, emon, emday) => smon == emon && smday == emday
    case MonthDay(smday, emday) => smday == emday
    case MonthWeekDay(swday, soffset, smon, ewday, eoffset, emon) =>
      swday == ewday && soffset == eoffset && smon == emon
    case WeekDay(swday, soffset, ewday, eoffset) => swday == ewday && soffset == eoffset
  }

  lemma RangesStart(dr: Daterange)
    ensures IsRanges(RangesOf(dr))
  {
    if dr.ranges != [] {
      hide RangeText;
      RangeTextIs(dr.ranges[0]);
      assert RangesText(dr.ranges, "")[0] == RangeText(dr.ranges[0])[0];
    }
  }

  /** What a printed line is read as: the dates and the interval, unless the range is a single date with an
      interval, which stays in front of the time ranges. */
  lemma ReadPrinted(dr: Daterange)
    requires Printable(dr) && Print(dr).Line?
    ensures var f := Read(Print(dr).text);
            if dr.dates.CalendarDate? then f == None
            else if dr.skip != 0 && Single(dr.dates) then
              f == Found(dr.dates, 0, "/" + (" " + (Signed(dr.skip) + (" " + RangesOf(dr)))))
            else f == Found(dr.dates, dr.skip, RangesOf(dr))
  {
    RangesStart(dr);
    hide RangesOf, IsRanges, Phrase, Read, DayId, MonthId, Until, Signed;
    match dr.dates {
      case CalendarDate(_, _, _, _, _, _) => NoWordNoRead(" " + RangesOf(dr));
      case MonthDate(_, _, _, _) => ReadMonthDate(dr);
      case MonthDay(_, _) => ReadMonthDay(dr);
      case MonthWeekDay(_, _, _, _, _, _) => ReadMonthWeekDay(dr);
      case WeekDay(_, _, _, _) => ReadWeekDay(dr);
    }
  }

  lemma NoWordNoRead(line: string)
    requires line != "" && !IsLetter(line[0])
    ensures Read(line) == None
  {
    forall k: nat ensures Try(line, k) == Stop(line) {
    }
    hide Try;
  }

  lemma ReadMonthDate(dr: Daterange)
    requires Printable(dr) && dr.dates.MonthDate? && IsRanges(RangesOf(dr))
    ensures var f := Read(Print(dr).text);
            if dr.skip != 0 && Single(dr.dates) then
              f == Found(dr.dates, 0, "/" + (" " + (Signed(dr.skip) + (" " + RangesOf(dr)))))
            else f == Found(dr.dates, dr.skip, RangesOf(dr))
  {
    hide RangesOf, IsRanges, Phrase, Read, DayId, MonthId, Until, Signed, IsWord, MonthName;
    var d, t := dr.dates, RangesOf(dr);
    MonthKnown(d.smon);
    MonthKnown(d.emon);
    if d.smon != d.emon {
      ReadToPhrase(MonthName(d.smon), d.smday, MonthName(d.emon), d.emday, dr.skip, t);
    } else if d.smday != d.emday {
      ReadToNumber(MonthName(d.smon), d.smday, d.emday, dr.skip, t);
    } else {
      ReadClosed(MonthName(d.smon), d.smday, dr.skip, t);
    }
  }

  lemma ReadClosed(w: string, n: int, skip: int, t: string)
    requires IsWord(w) && IsInt32(n) && IsRanges(t)
    ensures Read(Phrase(w, n, Close(skip, t))) ==
            Between(w, n, w, n, 0, if skip == 0 then t else "/" + (" " + (Signed(skip) + (" " + t))))
  {
    ReadPlain(w, n, if skip == 0 then t else "/" + (" " + (Signed(skip) + (" " + t))));
  }

  lemma ReadMonthDay(dr: Daterange)
    requires Printable(dr) && dr.dates.MonthDay? && IsRanges(RangesOf(dr))
    ensures var f := Read(Print(dr).text);
            if dr.skip != 0 && Single(dr.dates) then
              f == Found(dr.dates, 0, "/" + (" " + (Signed(dr.skip) + (" " + RangesOf(dr)))))
            else f == Found(dr.dates, dr.skip, RangesOf(dr))
  {
    hide RangesOf, IsRanges, Phrase, Read, DayId, MonthId, Until, Signed, IsWord;
    var d, t := dr.dates, RangesOf(dr);
    AnyDayKnown();
    if d.smday != d.emday {
      ReadToNumber(DAY, d.smday, d.emday, dr.skip, t);
    } else {
      ReadClosed(DAY, d.smday, dr.skip, t);
    }
  }

  lemma ReadMonthWeekDay(dr: Daterange)
    requires Printable(dr) && dr.dates.MonthWeekDay? && dr.skip == 0 && IsRanges(RangesOf(dr))
    ensures Read(Print(dr).text) == Found(dr.dates, 0, RangesOf(dr))
  {
    hide RangesOf, IsRanges, Phrase, Read, DayId, MonthId, Until, Signed, IsWord, MonthName, DayName;
    var d, t := dr.dates, RangesOf(dr);
    DayKnown(d.swday);
    DayKnown(d.ewday);
    MonthKnown(d.smon);
    MonthKnown(d.emon);
    if Single(d) {
      ReadMonth(DayName(d.swday), d.soffset, MonthName(d.smon), t);
    } else {
      ReadMonths(DayName(d.swday), d.soffset, MonthName(d.smon), DayName(d.ewday), d.eoffset, MonthName(d.emon), t);
    }
  }

  lemma ReadWeekDay(dr: Daterange)
    requires Printable(dr) && dr.dates.WeekDay? && IsRanges(RangesOf(dr))
    ensures var f := Read(Print(dr).text);
            if dr.skip != 0 && Single(dr.dates) then
              f == Found(dr.dates, 0, "/" + (" " + (Signed(dr.skip) + (" " + RangesOf(dr)))))
            else f == Found(dr.dates, dr.skip, RangesOf(dr))
  {
    hide RangesOf, IsRanges, Phrase, Read, DayId, MonthId, Until, Signed, IsWord, DayName;
    var d, t := dr.dates, RangesOf(dr);
    DayKnown(d.swday);
    DayKnown(d.ewday);
    if Single(d) {
      ReadClosed(DayName(d.swday), d.soffset, dr.skip, t);
    } else {
      ReadToPhrase(DayName(d.swday), d.soffset, DayName(d.ewday), d.eoffset, dr.skip, t);
    }
  }

  // Time ranges that are not understood.

  lemma NoRangesFail()
    ensures !ReadRanges("").ok
  {
  }

  lemma {:induction false} StripRightKeeps(s: string)
    requires s != "" && !IsBlank(s[0])
    ensures StripRight(s) != "" && StripRight(s)[0] == s[0]
  {
    if IsBlank(s[|s| - 1]) {
      StripRightKeeps(s[..|s| - 1]);
    }
  }

  lemma SlashIsNoTime(s: string)
    requires s == "" || s[0] == '/'
    ensures ReadTime(s) == -1
  {
    var k := Find(s, ':');
    if k != -1 {
      StripRightKeeps(s[..k]);
    }
  }

  lemma SlashFails(s: string)
    requires s != "" && s[0] == '/'
    ensures !ReadRanges(s).ok
  {
    var p := Split(s, ',')[0];
    assert p[0] == '/';
    StripRightKeeps(p);
    var t := Strip(p);
    var k := Find(t, '-');
    if k != -1 {
      SlashIsNoTime(t[..k]);
    }
  }

  /** The ranges are whole minutes and their hours fit 32 bits. */
  predicate Whole(rs: seq<Range>) {
    forall k :: 0 <= k < |rs| ==> IsWhole(rs[k].start) && IsWhole(rs[k].end)
  }

  predicate IsWhole(seconds: nat) {
    seconds % 60 == 0 && seconds / 3600 < UINT32
  }

  lemma WholeIff(rs: seq<Range>)
    ensures AllKept(rs) == rs <==> Whole(rs)
  {
    hide Kept, IsWhole;
    AllKeptIff(rs);
    forall k | 0 <= k < |rs|
      ensures Kept(rs[k].start) == rs[k].start <==> IsWhole(rs[k].start)
      ensures Kept(rs[k].end) == rs[k].end <==> IsWhole(rs[k].end)
    {
      KeptIsWhole(rs[k].start);
      KeptIsWhole(rs[k].end);
    }
  }

  lemma KeptIsWhole(x: nat)
    ensures Kept(x) == x <==> IsWhole(x)
  {
    KeptIff(x);
  }

  /** When a date range comes back from its text. */
  predicate Reversible(dr: Daterange)
    requires Printable(dr)
  {
    !dr.dates.CalendarDate? && dr.ranges != [] && Whole(dr.ranges) &&
    (dr.skip == 0 || (!dr.dates.MonthWeekDay? && !Single(dr.dates))) &&
    (Print(dr).Line? ==> |Print(dr).text| <= 1024)
  }

  /** Where the interval or nothing stands in place of the time ranges, they are not understood. */
  lemma ParseFails(dr: Daterange)
    requires Printable(dr) && Print(dr).Line?
    requires dr.dates.CalendarDate? || (dr.skip != 0 && Single(dr.dates)) || dr.ranges == []
    ensures Parse(Print(dr).text).Ignored? || !Parse(Print(dr).text).ok
  {
    ReadPrinted(dr);
    SlashFails("/" + (" " + (Signed(dr.skip) + (" " + RangesOf(dr)))));
    NoRangesFail();
    hide Print, Read, ReadRanges, Signed;
  }

  lemma ParseKeeps(dr: Daterange)
    requires Printable(dr) && Print(dr).Line? && !dr.dates.CalendarDate? && dr.ranges != []
    requires dr.skip == 0 || !Single(dr.dates)
    ensures Parse(Print(dr).text) ==
            if |Print(dr).text| > 1024 then Ignored else Added(true, dr.(ranges := AllKept(dr.ranges)))
  {
    ReadPrinted(dr);
    ReadRangesText(dr.ranges, "");
    hide Print, Read, ReadRanges, RangesText;
  }

  /** Two days of the week in months written out, with an interval to skip or without. */
  function Spelled(d: Dates, skip: int, t: string): string
    requires d.MonthWeekDay? && 0 <= d.swday < 7 && 0 <= d.smon < 12 && 0 <= d.ewday < 7 && 0 <= d.emon < 12
  {
    var end := Phrase(DayName(d.ewday), d.eoffset, " " + (MonthName(d.emon) + Close(skip, t)));
    Phrase(DayName(d.swday), d.soffset, " " + (MonthName(d.smon) + Until(end)))
  }

  /** The form that is never printed with an interval is read with one all the same: whatever the days, months,
      offsets, interval and time ranges, the line says what it is read as. */
  lemma ReadSpelled(dr: Daterange, t: string)
    requires Printable(dr) && dr.dates.MonthWeekDay? && IsRanges(t)
    ensures Read(Spelled(dr.dates, dr.skip, t)) == Found(dr.dates, dr.skip, t)
  {
    hide IsRanges, Phrase, Read, DayId, MonthId, Until, Signed, IsWord, DayName, MonthName;
    var d := dr.dates;
    DayKnown(d.swday);
    DayKnown(d.ewday);
    MonthKnown(d.smon);
    MonthKnown(d.emon);
    if dr.skip == 0 {
      ReadMonths(DayName(d.swday), d.soffset, MonthName(d.smon), DayName(d.ewday), d.eoffset, MonthName(d.emon), t);
    } else {
      ReadMonthsSkip(DayName(d.swday), d.soffset, MonthName(d.smon), DayName(d.ewday), d.eoffset, MonthName(d.emon),
        dr.skip, t);
    }
  }

  lemma ParseSpelled(dr: Daterange)
    requires Printable(dr) && dr.dates.MonthWeekDay? && dr.ranges != []
    ensures var line := Spelled(dr.dates, dr.skip, RangesText(dr.ranges, ""));
            Parse(line) == if |line| > 1024 then Ignored else Added(true, dr.(ranges := AllKept(dr.ranges)))
  {
    RangesStart(dr);
    ReadSpelled(dr, RangesText(dr.ranges, ""));
    ReadRangesText(dr.ranges, "");
    hide Spelled, Read, ReadRanges, RangesText;
  }

  /** How time ranges look: from half past eight to midnight. */
  lemma RangesOfExample(rs: seq<Range>)
    requires rs == [Range(30600, 86400)]
    ensures RangesText(rs, "") == "08:30-24:00"
  {
    DecimalsOfExample();
    hide Decimal;
    assert TimeText(30600) == "08:30" && TimeText(86400) == "24:00";
  }

  lemma DecimalsOfExample()
    ensures Decimal(0) == "0" && Decimal(8) == "8" && Decimal(24) == "24" && Decimal(30) == "30"
  {
  }

  /** Reading what was printed adds the very same range, exactly when the range is reversible. */
  lemma RoundTripIff(dr: Daterange)
    requires Printable(dr)
    ensures Print(dr).Line? && Parse(Print(dr).text) == Added(true, dr) <==> Reversible(dr)
  {
    if Print(dr).Line? {
      WeekDayInMonthHasNoSkip(dr);
      hide Print, Parse, Whole;
      if dr.dates.CalendarDate? || (dr.skip != 0 && Single(dr.dates)) || dr.ranges == [] {
        ParseFails(dr);
      } else {
        ParseKeeps(dr);
        WholeIff(dr.ranges);
      }
    }
  }

  lemma WeekDayInMonthHasNoSkip(dr: Daterange)
    requires Printable(dr)
    ensures Print(dr).Line? <==> !(dr.dates.MonthWeekDay? && dr.skip != 0)
  {
    hide Phrase, Until, Close, RangesOf, Signed, DayName, MonthName;
  }

  // ----- the time period

  /** The lists of ranges of a time period, by form. */
  datatype Exceptions = Exceptions(calendarDate: seq<Daterange>, monthDate: seq<Daterange>, monthDay: seq<Daterange>,
    monthWeekDay: seq<Daterange>, weekDay: seq<Daterange>)

  function Append(e: Exceptions, dr: Daterange): Exceptions {
    match dr.dates
    case CalendarDate(_, _, _, _, _, _) => e.(calendarDate := e.calendarDate + [dr])
    case MonthDate(_, _, _, _) => e.(monthDate := e.monthDate + [dr])
    case MonthDay(_, _) => e.(monthDay := e.monthDay + [dr])
    case MonthWeekDay(_, _, _, _, _, _) => e.(monthWeekDay := e.monthWeekDay + [dr])
    case WeekDay(_, _, _, _) => e.(weekDay := e.weekDay + [dr])
  }

  /** f is e with one range more, in the list of its form and in no other. */
  predicate Adds(e: Exceptions, dr: Daterange, f: Exceptions) {
    f.calendarDate == e.calendarDate + (if dr.dates.CalendarDate? then [dr] else []) &&
    f.monthDate == e.monthDate + (if dr.dates.MonthDate? then [dr] else []) &&
    f.monthDay == e.monthDay + (if dr.dates.MonthDay? then [dr] else []) &&
    f.monthWeekDay == e.monthWeekDay + (if dr.dates.MonthWeekDay? then [dr] else []) &&
    f.weekDay == e.weekDay + (if dr.dates.WeekDay? then [dr] else [])
  }

  class Timeperiod {
    var exceptions: Exceptions

    method AddOtherDate(line: string) returns (ok: bool)
      modifies this
      ensures var added := Parse(line);
              if added.Ignored? then !ok && exceptions == old(exceptions)
              else ok == added.ok && exceptions == Append(old(exceptions), added.daterange) &&
                   Adds(old(exceptions), added.daterange, exceptions)
    {
      if |line| > 1024 {
        return false;
      }
      var found := Read(line);
      if found.None? {
        return false;
      }
      var ranges;
      ok, ranges := BuildTimeranges(found.left);
      exceptions := Append(exceptions, Daterange(found.dates, found.skip, ranges));
    }
  }

  method BuildTimeranges(line: string) returns (ok: bool, ranges: seq<Range>)
    ensures Built(ok, ranges) == ReadRanges(line)
  {
    hide Split, ReadRange;
    var pieces := Split(line, ',');
    ok, ranges := true, [];
    var i := 0;
    while i < |pieces| && ok
      invariant i <= |pieces|
      invariant ok ==> var b := ReadPieces(pieces[i..]); ReadPieces(pieces) == Built(b.ok, ranges + b.ranges)
      invariant !ok ==> ReadPieces(pieces) == Built(false, ranges)
      decreases |pieces| - i, ok
    {
      assert pieces[i..][1..] == pieces[i + 1..];
      match ReadRange(pieces[i]) {
        case NoRange =>
          assert ranges + [] == ranges;
          ok := false;
        case SomeRange(r) =>
          ConcatAssociative(ranges, [r], ReadPieces(pieces[i + 1..]).ranges);
          ranges := ranges + [r];
          i := i + 1;
      }
    }
    assert ok ==> pieces[i..] == [] && ranges + [] == ranges;
  }

  method JoinRanges(rs: seq<Range>) returns (text: string)
    ensures text == if rs == [] then "" else RangesText(rs, "")
  {
    hide RangeText;
    text := "";
    var lead := "";
    var i := 0;
    while i < |rs|
      invariant i <= |rs| && lead == (if i == 0 then "" else ", ")
      invariant i < |rs| ==>
                  if i == 0 then text == "" else text + ("," + RangesText(rs[i..], " ")) == RangesText(rs, "")
      invariant i == |rs| ==> text == if rs == [] then "" else RangesText(rs, "")
    {
      assert rs[i..][1..] == rs[i + 1..];
      text := text + lead + RangeText(rs[i]);
      lead := ", ";
      i := i + 1;
    }
  }

  lemma PhraseText(w: string, n: int, rest: string)
    ensures w + " " + Signed(n) + rest == Phrase(w, n, rest)
  {
  }

  lemma UntilText(a: string, y: string)
    ensures a + " - " + y == a + Until(y)
  {
  }

  lemma CloseText(a: string, skip: int, t: string)
    ensures (if skip != 0 then a + " / " + Signed(skip) else a) + " " + t == a + Close(skip, t)
  {
    hide Signed;
    if skip != 0 {
      var n := Signed(skip);
      assert a + " / " + n + " " + t == a + (" " + ("/" + (" " + (n + (" " + t)))));
    }
  }

  /** The text of the dates, from which the line of a range is made. */
  method DatesText(d: Dates, ghost rest: string) returns (text: string)
    requires Numbers(d) && !d.CalendarDate?
    ensures text + rest == match d
      case MonthDate(smon, smday, emon, emday) =>
        Phrase(MonthName(smon), smday,
          if smon != emon then Until(Phrase(MonthName(emon), emday, rest))
          else if smday != emday then Until(Signed(emday) + rest) else rest)
      case MonthDay(smday, emday) => Phrase(DAY, smday, if smday != emday then Until(Signed(emday) + rest) else rest)
      case MonthWeekDay(swday, soffset, smon, ewday, eoffset, emon) =>
        Phrase(DayName(swday), soffset, " " + (MonthName(smon) +
          if !Single(d) then Until(Phrase(DayName(ewday), eoffset, " " + (MonthName(emon) + rest))) else rest))
      case WeekDay(swday, soffset, ewday, eoffset) =>
        Phrase(DayName(swday), soffset, if !Single(d) then Until(Phrase(DayName(ewday), eoffset, rest)) else rest)
  {
    hide Phrase, Until, Signed, DayName, MonthName;
    match d {
      case MonthDate(smon, smday, emon, emday) =>
        text := MonthName(smon) + " " + Signed(smday);
        if smon != emon {
          text := NamedEnd(text, MonthName(smon), smday, MonthName(emon), emday, rest);
        } else if smday != emday {
          text := NumberedEnd(text, MonthName(smon), smday, emday, rest);
        } else {
          PhraseText(MonthName(smon), smday, rest);
        }
      case MonthDay(smday, emday) =>
        text := DAY + " " + Signed(smday);
        if smday != emday {
          text := NumberedEnd(text, DAY, smday, emday, rest);
        } else {
          PhraseText(DAY, smday, rest);
        }
      case MonthWeekDay(swday, soffset, smon, ewday, eoffset, emon) =>
        text := MonthWeekDayText(DayName(swday), soffset, MonthName(smon), !Single(d), DayName(ewday), eoffset,
          MonthName(emon), rest);
      case WeekDay(swday, soffset, ewday, eoffset) =>
        text := DayName(swday) + " " + Signed(soffset);
        if !Single(d) {
          text := NamedEnd(text, DayName(swday), soffset, DayName(ewday), eoffset, rest);
        } else {
          PhraseText(DayName(swday), soffset, rest);
        }
    }
  }

  method NamedEnd(start: string, ghost w: string, ghost n: int, b: string, m: int, ghost rest: string)
    returns (text: string)
    requires start == w + " " + Signed(n)
    ensures text + rest == Phrase(w, n, Until(Phrase(b, m, rest)))
  {
    hide Phrase, Until, Signed;
    text := start + " - " + (b + " " + Signed(m));
    PhraseText(b, m, rest);
    ConcatAssociative(start + " - ", b + " " + Signed(m), rest);
    UntilText(start, Phrase(b, m, rest));
    PhraseText(w, n, Until(Phrase(b, m, rest)));
  }

  method NumberedEnd(start: string, ghost w: string, ghost n: int, m: int, ghost rest: string) returns (text: string)
    requires start == w + " " + Signed(n)
    ensures text + rest == Phrase(w, n, Until(Signed(m) + rest))
  {
    hide Phrase, Until, Signed;
    text := start + " - " + Signed(m);
    ConcatAssociative(start + " - ", Signed(m), rest);
    UntilText(start, Signed(m) + rest);
    PhraseText(w, n, Until(Signed(m) + rest));
  }

  method MonthWeekDayText(w: string, n: int, a: string, more: bool, b: string, m: int, c: string, ghost rest: string)
    returns (text: string)
    ensures text + rest ==
      Phrase(w, n, " " + (a + if more then Until(Phrase(b, m, " " + (c + rest))) else rest))
  {
    hide Phrase, Until, Signed;
    text := w + " " + Signed(n) + (" " + a);
    if more {
      ghost var last := " " + (c + rest);
      ghost var y := Until(Phrase(b, m, last));
      ConcatAssociative(" ", a, y);
      PhraseText(w, n, " " + (a + y));
      ConcatAssociative(w + " " + Signed(n), " " + a, y);
      UntilText(text, Phrase(b, m, last));
      PhraseText(b, m, last);
      ConcatAssociative(" ", c, rest);
      ConcatAssociative(b + " " + Signed(m), " " + c, rest);
      ConcatAssociative(text + " - ", b + " " + Signed(m) + (" " + c), rest);
      text := text + " - " + (b + " " + Signed(m) + (" " + c));
    } else {
      ConcatAssociative(" ", a, rest);
      ConcatAssociative(w + " " + Signed(n), " " + a, rest);
      PhraseText(w, n, " " + (a + rest));
    }
  }

  method DaterangeToStr(dr: Daterange) returns (line: Line)
    requires Printable(dr)
    ensures line == Print(dr)
  {
    hide Phrase, Until, Signed, DayName, MonthName, Close;
    var t := JoinRanges(dr.ranges);
    if dr.dates.CalendarDate? {
      return Line(" " + t);
    }
    if dr.dates.MonthWeekDay? && dr.skip != 0 {
      return FormatError;
    }
    var text := DatesText(dr.dates, if dr.dates.MonthWeekDay? then " " + t else Close(dr.skip, t));
    CloseText(text, dr.skip, t);
    ConcatAssociative(text, " ", t);
    if dr.skip != 0 {
      text := text + " / " + Signed(dr.skip);
    }
    line := Line(text + " " + t);
  }
}
