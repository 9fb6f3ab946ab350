/** The database text of a point in time, on broken-down fields: `toDbStringLocal` and
    `fromDbStringLocal` of time/DateTime.cpp. */
module DateText {
  import opened Decimals
  import opened Options
  import opened SplitString

  datatype Fields = Fields(year: nat, month: nat, day: nat, hour: nat, minute: nat, second: nat, micro: nat)

  /** What `localtime_r` can produce for a non-negative time. */
  predicate Broken(f: Fields) {
    && f.year < 0x8000_0000 && 1 <= f.month <= 12 && 1 <= f.day <= 31
    && f.hour <= 23 && f.minute <= 59 && f.second <= 60 && f.micro < 1_000_000
  }

  predicate Midnight(f: Fields) {
    f.hour == 0 && f.minute == 0 && f.second == 0 && f.micro == 0
  }

  // ------------------------------------------------------------------ printf and stol

  function Filled(c: char, n: nat): string {
    if n == 0 then "" else [c] + Filled(c, n - 1)
  }

  /** Conversions such as %4d (padded with blanks) and %02d (padded with zeros). */
  function Padded(c: char, width: nat, n: nat): string {
    var digits := Decimal(n);
    (if |digits| < width then Filled(c, width - |digits|) else "") + digits
  }

  predicate IsSpace(c: char) {
    c == ' ' || ('\t' <= c <= '\r')
  }

  function TrimSpaces(s: string): string {
    if s != "" && IsSpace(s[0]) then TrimSpaces(s[1..]) else s
  }

  /** `std::stol` with 64-bit long; None when it throws. */
  function Stol(s: string): Option<int> {
    var t := TrimSpaces(s);
    var signed := t != "" && (t[0] == '-' || t[0] == '+');
    var u := if signed then t[1..] else t;
    if u == "" || !IsDigit(u[0]) then None else
    var magnitude: int := LeadingValue(u, 0);
    var n: int := if signed && t[0] == '-' then 0 - magnitude else magnitude;
    if -0x8000_0000_0000_0000 <= n < 0x8000_0000_0000_0000 then Some(n) else None
  }

  /** The conversion to `unsigned int` on assignment. */
  function Unsigned(n: int): (r: nat)
    ensures r < 0x1_0000_0000 && (n - r) % 0x1_0000_0000 == 0
  {
    n % 0x1_0000_0000
  }

  // ------------------------------------------------------------------ the two directions

  function DateOf(f: Fields): string {
    Padded(' ', 4, f.year) + "-" + Padded('0', 2, f.month) + "-" + Padded('0', 2, f.day)
  }

  function SecondsOf(f: Fields): string {
    Padded('0', 2, f.second) + if f.micro == 0 then "" else "." + Padded('0', 6, f.micro)
  }

  function TimeOf(f: Fields): string {
    Padded('0', 2, f.hour) + ":" + Padded('0', 2, f.minute) + ":" + SecondsOf(f)
  }

  /** `toDbStringLocal`. */
  function ToDbString(f: Fields): string {
    if Midnight(f) then DateOf(f)
    else DateOf(f) + " " + TimeOf(f)
  }

  /** The fields read, or an exception of `stol`, or a read past the end of the split seconds. */
  datatype Reading = Read(fields: Fields) | NotANumber | OutOfBounds

  const ZERO := Fields(0, 0, 0, 0, 0, 0, 0)

  /** The digits after the point, cut or filled up to six. */
  function SixDigits(s: string): string {
    if |s| > 6 then s[..6] else s + Filled('0', 6 - |s|)
  }

  function ReadSeconds(f: Fields, text: string): Reading {
    var parts := Split(text, ".");
    if parts == [] then OutOfBounds else
    match Stol(parts[0])
    case None => NotANumber
    case Some(second) =>
      var g := f.(second := Unsigned(second));
      if |parts| <= 1 then Read(g) else
      match Stol(SixDigits(parts[1]))
      case None => NotANumber
      case Some(micro) => Read(g.(micro := Unsigned(micro)))
  }

  function ReadTime(f: Fields, text: string): Reading {
    var time := Split(text, ":");
    if |time| <= 2 then Read(f) else
    var hour, minute := Stol(time[0]), Stol(time[1]);
    if hour == None || minute == None then NotANumber
    else ReadSeconds(f.(hour := Unsigned(hour.value), minute := Unsigned(minute.value)), time[2])
  }

  function ReadDate(text: string, rest: string): Reading {
    var date := Split(text, "-");
    if |date| != 3 then Read(ZERO) else
    var year, month, day := Stol(date[0]), Stol(date[1]), Stol(date[2]);
    if year == None || month == None || day == None then NotANumber
    else ReadTime(ZERO.(year := Unsigned(year.value), month := Unsigned(month.value), day := Unsigned(day.value)), rest)
  }

  /** `fromDbStringLocal`, up to the construction of the DateTime from the fields. */
  function FromDbString(text: string): Reading {
    var v := Split(text, " ");
    if |v| != 2 then Read(ZERO) else ReadDate(v[0], v[1])
  }

  // ------------------------------------------------------------------ numbers survive

  lemma {:induction false} ZerosValue(n: nat, s: string)
    requires Digits(s)
    ensures Digits(Filled('0', n) + s) && LeadingValue(Filled('0', n) + s, 0) == LeadingValue(s, 0)
  {
    if n == 0 {
      assert Filled('0', n) + s == s;
    } else {
      ZerosValue(n - 1, s);
      assert (Filled('0', n) + s)[1..] == Filled('0', n - 1) + s;
    }
  }

  lemma StolOfDigits(s: string)
    requires Digits(s) && LeadingValue(s, 0) < 0x8000_0000
    ensures Stol(s) == Some(LeadingValue(s, 0))
  {
    assert IsDigit(s[0]);
    assert TrimSpaces(s) == s;
  }

  /** Reading back what %0wd printed gives the number. */
  lemma {:induction false} StolOfPadded(width: nat, n: nat)
    requires n < 0x8000_0000
    ensures Digits(Padded('0', width, n)) && Stol(Padded('0', width, n)) == Some(n) && Unsigned(n) == n
  {
    DecimalValue(n);
    var d := Decimal(n);
    if |d| < width {
      ZerosValue(width - |d|, d);
    } else {
      assert "" + d == d;
    }
    StolOfDigits(Padded('0', width, n));
  }

  lemma {:induction false} FilledLength(c: char, n: nat)
    ensures |Filled(c, n)| == n
  {
    if n > 0 {
      FilledLength(c, n - 1);
    }
  }

  /** A number below a million prints with %06d as exactly six digits. */
  lemma {:induction false} SixDigitsOfMicro(n: nat)
    requires n < 1_000_000
    ensures SixDigits(Padded('0', 6, n)) == Padded('0', 6, n)
  {
    DecimalLength(n, 6);
    FilledLength('0', 6 - |Decimal(n)|);
    var s := Padded('0', 6, n);
    assert |s| == 6 && s + Filled('0', 0) == s;
  }

  lemma DigitsFree(s: string, c: char)
    requires Digits(s) && !IsDigit(c)
    ensures c !in s
  {
  }

  // ------------------------------------------------------------------ the split of a printed text

  /** Non-empty pieces free of the separator come back from the default split. */
  lemma {:induction false} SplitOfJoin(v: seq<string>, c: char)
    requires v != [] && forall i :: 0 <= i < |v| ==> v[i] != "" && c !in v[i]
    ensures Split(Join(v, [c]), [c]) == v
  {
    PiecesOfJoin(v, c);
    NothingDropped(v);
  }

  lemma {:induction false} NothingDropped(v: seq<string>)
    requires forall i :: 0 <= i < |v| ==> v[i] != ""
    ensures NonEmpty(v) == v
  {
    if v != [] {
      NothingDropped(v[1..]);
    }
  }

  lemma SplitTwo(p: string, q: string, c: char)
    requires p != "" && q != "" && c !in p && c !in q
    ensures Split(p + [c] + q, [c]) == [p, q]
  {
    SplitOfJoin([p, q], c);
    JoinCons(p, [q], [c]);
    assert [p] + [q] == [p, q];
  }

  lemma SplitThree(p: string, q: string, r: string, c: char)
    requires p != "" && q != "" && r != "" && c !in p && c !in q && c !in r
    ensures Split(p + [c] + q + [c] + r, [c]) == [p, q, r]
  {
    SplitOfJoin([p, q, r], c);
    JoinCons(p, [q, r], [c]);
    JoinCons(q, [r], [c]);
    assert [p] + [q, r] == [p, q, r] && [q] + [r] == [q, r];
    assert p + [c] + (q + [c] + r) == p + [c] + q + [c] + r;
  }

  lemma SplitOneOff(c: char, rest: string)
    ensures Split([c] + rest, [c]) == Split(rest, [c])
  {
    FirstFound("", rest, c);
    var s := [c] + rest;
    assert "" + [c] + rest == s && s[0 + |[c]|..] == rest;
    assert Pieces(s, [c]) == [s[..0]] + Pieces(rest, [c]);
    DropEmpty(Pieces(rest, [c]));
  }

  /** Separators in front are dropped. */
  lemma {:induction false} SplitFilled(c: char, n: nat, s: string)
    ensures Split(Filled(c, n) + s, [c]) == Split(s, [c])
  {
    if n == 0 {
      assert Filled(c, n) + s == s;
    } else {
      SplitFilled(c, n - 1, s);
      SplitOneOff(c, Filled(c, n - 1) + s);
      assert [c] + (Filled(c, n - 1) + s) == Filled(c, n) + s;
    }
  }

  lemma DropEmpty(v: seq<string>)
    ensures NonEmpty([""] + v) == NonEmpty(v)
  {
    assert ([""] + v)[1..] == v;
  }

  // ------------------------------------------------------------------ the round trip

  /** The date without the blanks %4d puts in front of a short year. */
  function Core(f: Fields): string {
    Padded('0', 0, f.year) + "-" + Padded('0', 2, f.month) + "-" + Padded('0', 2, f.day)
  }

  function Blanks(f: Fields): nat {
    var length := |Decimal(f.year)|;
    if length < 4 then 4 - length else 0
  }

  lemma DateIsFilledCore(f: Fields)
    ensures DateOf(f) == Filled(' ', Blanks(f)) + Core(f)
  {
    var digits := Decimal(f.year);
    assert Padded('0', 0, f.year) == "" + digits == digits;
    Regroup(Filled(' ', Blanks(f)), digits, "-", Padded('0', 2, f.month), Padded('0', 2, f.day));
    assert Padded(' ', 4, f.year) == Filled(' ', Blanks(f)) + digits;
  }

  lemma Regroup(a: string, b: string, c: string, d: string, e: string)
    ensures a + b + c + d + c + e == a + (b + c + d + c + e)
    ensures a + b + c + d == a + (b + c + d)
  {
  }

  lemma DateSplits(f: Fields)
    requires Broken(f)
    ensures Core(f) != "" && ' ' !in Core(f)
    ensures Split(Core(f), "-") == [Padded('0', 0, f.year), Padded('0', 2, f.month), Padded('0', 2, f.day)]
  {
    var y, m, d := Padded('0', 0, f.year), Padded('0', 2, f.month), Padded('0', 2, f.day);
    StolOfPadded(0, f.year);
    StolOfPadded(2, f.month);
    StolOfPadded(2, f.day);
    DigitsFree(y, '-');
    DigitsFree(m, '-');
    DigitsFree(d, '-');
    SplitThree(y, m, d, '-');
  }

  lemma SecondsFree(f: Fields)
    requires Broken(f)
    ensures Digits(Padded('0', 2, f.second)) && Digits(Padded('0', 6, f.micro))
    ensures SecondsOf(f) != "" && ' ' !in SecondsOf(f) && ':' !in SecondsOf(f)
  {
    StolOfPadded(2, f.second);
    StolOfPadded(6, f.micro);
    DigitsFree(Padded('0', 2, f.second), ':');
    DigitsFree(Padded('0', 6, f.micro), ':');
    DigitsFree(Padded('0', 2, f.second), ' ');
    DigitsFree(Padded('0', 6, f.micro), ' ');
  }

  lemma SecondsSplit(f: Fields)
    requires Broken(f)
    ensures Split(SecondsOf(f), ".") ==
            if f.micro == 0 then [Padded('0', 2, f.second)] else [Padded('0', 2, f.second), Padded('0', 6, f.micro)]
  {
    SecondsFree(f);
    PointSplits(Padded('0', 2, f.second), Padded('0', 6, f.micro));
  }

  lemma PointSplits(s: string, m: string)
    requires Digits(s) && Digits(m)
    ensures Split(s + "", ".") == [s] && Split(s + ("." + m), ".") == [s, m]
  {
    DigitsFree(s, '.');
    DigitsFree(m, '.');
    SplitOfJoin([s], '.');
    assert s + "" == s;
    SplitTwo(s, m, '.');
    assert s + ("." + m) == s + "." + m;
  }

  lemma TimeSplits(f: Fields)
    requires Broken(f)
    ensures TimeOf(f) != "" && ' ' !in TimeOf(f)
    ensures Split(TimeOf(f), ":") == [Padded('0', 2, f.hour), Padded('0', 2, f.minute), SecondsOf(f)]
  {
    var h, m := Padded('0', 2, f.hour), Padded('0', 2, f.minute);
    SecondsFree(f);
    StolOfPadded(2, f.hour);
    StolOfPadded(2, f.minute);
    DigitsFree(h, ':');
    DigitsFree(m, ':');
    SplitThree(h, m, SecondsOf(f), ':');
  }

  lemma ReadSecondsBack(f: Fields, g: Fields)
    requires Broken(f) && g.micro == 0
    ensures ReadSeconds(g, SecondsOf(f)) == Read(g.(second := f.second, micro := f.micro))
  {
    SecondsSplit(f);
    StolOfPadded(2, f.second);
    StolOfPadded(6, f.micro);
    SixDigitsOfMicro(f.micro);
  }

  lemma ReadTimeBack(f: Fields, g: Fields)
    requires Broken(f) && g.micro == 0
    ensures ReadTime(g, TimeOf(f)) ==
            Read(g.(hour := f.hour, minute := f.minute, second := f.second, micro := f.micro))
  {
    TimeSplits(f);
    StolOfPadded(2, f.hour);
    StolOfPadded(2, f.minute);
    ReadSecondsBack(f, g.(hour := f.hour, minute := f.minute));
  }

  lemma ReadDateBack(f: Fields)
    requires Broken(f)
    ensures ReadDate(Core(f), TimeOf(f)) == Read(f)
  {
    DateSplits(f);
    StolOfPadded(0, f.year);
    StolOfPadded(2, f.month);
    StolOfPadded(2, f.day);
    ReadTimeBack(f, ZERO.(year := f.year, month := f.month, day := f.day));
  }

  lemma FilledSplits(n: nat, core: string, time: string)
    requires core != "" && time != "" && ' ' !in core && ' ' !in time
    ensures Split(Filled(' ', n) + core, " ") == [core]
    ensures Split(Filled(' ', n) + core + " " + time, " ") == [core, time]
  {
    SplitFilled(' ', n, core);
    SplitOfJoin([core], ' ');
    SplitFilled(' ', n, core + " " + time);
    SplitTwo(core, time, ' ');
    Regroup(Filled(' ', n), core, " ", time, "");
  }

  lemma PrintedSplits(f: Fields)
    requires Broken(f)
    ensures Split(ToDbString(f), " ") == if Midnight(f) then [Core(f)] else [Core(f), TimeOf(f)]
  {
    DateIsFilledCore(f);
    DateSplits(f);
    TimeSplits(f);
    FilledSplits(Blanks(f), Core(f), TimeOf(f));
  }

  /** The two functions are inverses exactly off midnight: a midnight prints as a bare date, and a
      bare date is read as no date at all. */
  lemma RoundTrip(f: Fields)
    requires Broken(f)
    ensures FromDbString(ToDbString(f)) == Read(f) <==> !Midnight(f)
    ensures Midnight(f) ==> FromDbString(ToDbString(f)) == Read(ZERO)
  {
    PrintedSplits(f);
    ReadDateBack(f);
  }

  lemma PaddedLength(c: char, width: nat, n: nat)
    requires width > 0 && n < Power10(width)
    ensures |Padded(c, width, n)| == width
  {
    DecimalLength(n, width);
    if |Decimal(n)| < width {
      FilledLength(c, width - |Decimal(n)|);
    }
  }

  lemma {:induction false} AllBlank(n: nat)
    ensures Blank(Filled(' ', n))
  {
    if n > 0 {
      AllBlank(n - 1);
    }
  }

  lemma YearColumn(f: Fields)
    requires f.year < 10_000
    ensures |Padded(' ', 4, f.year)| == 4 && Stol(Padded(' ', 4, f.year)) == Some(f.year)
  {
    var digits := Decimal(f.year);
    assert Power10(4) == 10_000;
    PaddedLength(' ', 4, f.year);
    DecimalValue(f.year);
    DecimalLength(f.year, 4);
    AllBlank(4 - |digits|);
    StolReads(Filled(' ', 4 - |digits|), "", digits, "");
    assert Padded(' ', 4, f.year) == Filled(' ', 4 - |digits|) + ("" + (digits + "")) by {
      if |digits| == 4 {
        assert Filled(' ', 0) + ("" + (digits + "")) == digits;
      }
    }
  }

  /** Two-digit columns. */
  lemma Columns(a: string, c: string, b: string, rest: string)
    requires |c| == 1
    ensures var t := a + c + b + rest;
            t[..|a|] == a && t[|a|] == c[0] && t[|a| + 1..|a| + 1 + |b|] == b && t[|a| + 1 + |b|..] == rest
  {
  }

  lemma DateColumns(f: Fields)
    requires Broken(f) && f.year < 10_000
    ensures var t := DateOf(f);
            && |t| == 10 && t[4] == '-' && t[7] == '-'
            && Stol(t[..4]) == Some(f.year) && Stol(t[5..7]) == Some(f.month) && Stol(t[8..10]) == Some(f.day)
  {
    YearColumn(f);
    assert Power10(2) == 100;
    PaddedLength('0', 2, f.month);
    PaddedLength('0', 2, f.day);
    StolOfPadded(2, f.month);
    StolOfPadded(2, f.day);
    Columns(Padded(' ', 4, f.year), "-", Padded('0', 2, f.month), "-" + Padded('0', 2, f.day));
    Columns(Padded(' ', 4, f.year) + "-" + Padded('0', 2, f.month), "-", Padded('0', 2, f.day), "");
    assert DateOf(f) == Padded(' ', 4, f.year) + "-" + Padded('0', 2, f.month) + ("-" + Padded('0', 2, f.day));
    assert DateOf(f) + "" == DateOf(f);
  }

  lemma ClockColumns(h: string, m: string, s: string, fraction: string)
    requires |h| == 2 && |m| == 2 && |s| == 2
    ensures var t := h + ":" + m + ":" + (s + fraction);
            && |t| == 8 + |fraction| && t[2] == ':' && t[5] == ':'
            && t[..2] == h && t[3..5] == m && t[6..8] == s && t[8..] == fraction
  {
    Columns(h, ":", m, ":" + (s + fraction));
    Columns(h + ":" + m, ":", s, fraction);
    assert h + ":" + m + (":" + (s + fraction)) == h + ":" + m + ":" + (s + fraction) == h + ":" + m + ":" + s + fraction;
  }

  lemma TimeColumns(f: Fields)
    requires Broken(f)
    ensures var t := TimeOf(f);
            && |t| == (if f.micro == 0 then 8 else 15) && t[2] == ':' && t[5] == ':'
            && Stol(t[..2]) == Some(f.hour) && Stol(t[3..5]) == Some(f.minute) && Stol(t[6..8]) == Some(f.second)
            && (f.micro != 0 ==> t[8] == '.' && Stol(t[9..]) == Some(f.micro))
  {
    var micros := Padded('0', 6, f.micro);
    var fraction := if f.micro == 0 then "" else "." + micros;
    assert Power10(2) == 100 && Power10(6) == 1_000_000;
    PaddedLength('0', 2, f.hour);
    PaddedLength('0', 2, f.minute);
    PaddedLength('0', 2, f.second);
    PaddedLength('0', 6, f.micro);
    StolOfPadded(2, f.hour);
    StolOfPadded(2, f.minute);
    StolOfPadded(2, f.second);
    StolOfPadded(6, f.micro);
    ClockColumns(Padded('0', 2, f.hour), Padded('0', 2, f.minute), Padded('0', 2, f.second), fraction);
    BehindPoint(TimeOf(f), micros);
  }

  lemma BehindPoint(t: string, digits: string)
    requires |t| >= 8
    ensures t[8..] == "." + digits ==> |t| == 9 + |digits| && t[8] == '.' && t[9..] == digits
  {
    if t[8..] == "." + digits {
      assert t[8..][0] == '.' && t[8..][1..] == digits;
    }
  }

  lemma DateAndTime(d: string, t: string)
    requires |d| == 10 && |t| >= 8
    ensures var all := d + " " + t;
            && all[..4] == d[..4] && all[4] == d[4] && all[5..7] == d[5..7] && all[7] == d[7] && all[8..10] == d[8..10]
            && all[10] == ' ' && all[11..13] == t[..2] && all[13] == t[2] && all[14..16] == t[3..5] && all[16] == t[5]
            && all[17..19] == t[6..8] && (|t| > 8 ==> all[19] == t[8] && all[20..] == t[9..])
  {
  }

  /** The columns of the printed text, for years of up to four digits: the date, a blank, the time, and
      the microseconds behind a point. */
  lemma PrintedColumns(f: Fields)
    requires Broken(f) && f.year < 10_000
    ensures var t := ToDbString(f);
            && |t| == (if Midnight(f) then 10 else if f.micro == 0 then 19 else 26)
            && t[4] == '-' && t[7] == '-'
            && Stol(t[..4]) == Some(f.year) && Stol(t[5..7]) == Some(f.month) && Stol(t[8..10]) == Some(f.day)
            && (!Midnight(f) ==>
                  && t[10] == ' ' && t[13] == ':' && t[16] == ':'
                  && Stol(t[11..13]) == Some(f.hour) && Stol(t[14..16]) == Some(f.minute) && Stol(t[17..19]) == Some(f.second)
                  && (f.micro != 0 ==> t[19] == '.' && Stol(t[20..]) == Some(f.micro)))
  {
    DateColumns(f);
    if !Midnight(f) {
      TimeColumns(f);
      DateAndTime(DateOf(f), TimeOf(f));
    }
  }

  // ------------------------------------------------------------------ other texts

  /** Blanks, tabs, line feeds, vertical tabs, form feeds and carriage returns. */
  predicate Blank(s: string) {
    forall c :: c in s ==> c in {' ', '\t', '\n', '\U{0B}', '\U{0C}', '\r'}
  }

  /** `std::stol`: leading blanks, a sign, and digits up to the first other character; it throws when
      the number does not fit. */
  lemma StolReads(blanks: string, sign: string, d: string, tail: string)
    requires Blank(blanks) && sign in {"", "+", "-"} && Digits(d) && (tail == "" || !IsDigit(tail[0]))
    ensures var n: int := if sign == "-" then 0 - LeadingValue(d, 0) else LeadingValue(d, 0);
            Stol(blanks + (sign + (d + tail))) ==
            if -0x8000_0000_0000_0000 <= n < 0x8000_0000_0000_0000 then Some(n) else None
  {
    var u := d + tail;
    assert IsDigit(d[0]) && u[0] == d[0];
    TrimsBlanks(blanks, sign + u);
    LeadingConcat(d, tail, 0);
    assert sign != "" ==> (sign + u)[0] == sign[0] && (sign + u)[1..] == u;
    assert sign == "" ==> sign + u == u;
  }

  lemma {:induction false} TrimsBlanks(blanks: string, s: string)
    requires Blank(blanks) && s != "" && !IsSpace(s[0])
    ensures TrimSpaces(blanks + s) == s
  {
    if blanks == "" {
      assert blanks + s == s;
    } else {
      assert blanks[0] in blanks && forall c :: c in blanks[1..] ==> c in blanks;
      TrimsBlanks(blanks[1..], s);
      assert (blanks + s)[1..] == blanks[1..] + s;
    }
  }

  /** It throws when there is no digit behind the blanks and the sign. */
  lemma StolThrows(blanks: string, sign: string, tail: string)
    requires Blank(blanks) && sign in {"+", "-"} && (tail == "" || !IsDigit(tail[0]))
    ensures Stol(blanks + (sign + tail)) == None
  {
    TrimsBlanks(blanks, sign + tail);
    assert (sign + tail)[0] == sign[0] && (sign + tail)[1..] == tail;
  }

  lemma {:induction false} ZerosBehind(s: string, k: nat)
    requires Digits(s)
    ensures Digits(s + Filled('0', k)) && LeadingValue(s + Filled('0', k), 0) == LeadingValue(s, 0) * Power10(k)
  {
    FilledLength('0', k);
    ZerosAreDigits(k);
    LeadingConcat(s, Filled('0', k), 0);
    LeadingValueFrom(Filled('0', k), LeadingValue(s, 0));
  }

  lemma {:induction false} ZerosAreDigits(k: nat)
    ensures forall i :: 0 <= i < |Filled('0', k)| ==> Filled('0', k)[i] == '0'
    ensures LeadingValue(Filled('0', k), 0) == 0
  {
    if k > 0 {
      ZerosAreDigits(k - 1);
      assert Filled('0', k)[1..] == Filled('0', k - 1);
    }
  }

  lemma CutOff(a: string, b: string)
    requires Digits(a) && forall i :: 0 <= i < |b| ==> IsDigit(b[i])
    ensures LeadingValue(a, 0) * Power10(|b|) <= LeadingValue(a + b, 0) < (LeadingValue(a, 0) + 1) * Power10(|b|)
  {
    LeadingConcat(a, b, 0);
    LeadingValueFrom(b, LeadingValue(a, 0));
    Between(LeadingValue(a, 0), LeadingValue(b, 0), Power10(|b|));
  }

  lemma Between(v: nat, rest: nat, p: nat)
    requires rest < p
    ensures v * p <= v * p + rest < (v + 1) * p
  {
  }

  /** Digits behind a point are read as a decimal fraction, in microseconds, cut off behind the sixth. */
  lemma SixDigitsMeaning(d: string)
    requires Digits(d)
    ensures Digits(SixDigits(d)) && |SixDigits(d)| == 6
    ensures var micro := LeadingValue(SixDigits(d), 0);
            && micro < 1_000_000
            && (|d| <= 6 ==> micro == LeadingValue(d, 0) * Power10(6 - |d|))
            && (|d| > 6 ==> micro * Power10(|d| - 6) <= LeadingValue(d, 0) < (micro + 1) * Power10(|d| - 6))
  {
    if |d| > 6 {
      assert d == d[..6] + d[6..];
      CutOff(d[..6], d[6..]);
    } else {
      FilledLength('0', 6 - |d|);
      ZerosBehind(d, 6 - |d|);
    }
    LeadingValueFrom(SixDigits(d), 0);
    assert Power10(6) == 1_000_000;
  }

  lemma FractionIsRead(f: Fields, second: string, d: string)
    requires Digits(second) && Digits(d) && LeadingValue(second, 0) < 0x8000_0000
    ensures ReadSeconds(f, second + ("." + d)) ==
            Read(f.(second := LeadingValue(second, 0), micro := LeadingValue(SixDigits(d), 0)))
  {
    PointSplits(second, d);
    SixDigitsMeaning(d);
    StolOfDigits(second);
    StolOfDigits(SixDigits(d));
  }

  /** A text that is not two words, or whose first word is not three parts, is read as no date. */
  lemma OtherShapes(text: string)
    ensures |Split(text, " ")| != 2 ==> FromDbString(text) == Read(ZERO)
    ensures |Split(text, " ")| == 2 && |Split(Split(text, " ")[0], "-")| != 3 ==> FromDbString(text) == Read(ZERO)
  {
  }

  /** Without seconds the time of day is not read at all. */
  lemma WithoutSeconds(f: Fields)
    requires Broken(f)
    ensures FromDbString(Core(f) + " " + (Padded('0', 2, f.hour) + ":" + Padded('0', 2, f.minute))) ==
            Read(ZERO.(year := f.year, month := f.month, day := f.day))
  {
    var h, m := Padded('0', 2, f.hour), Padded('0', 2, f.minute);
    StolOfPadded(2, f.hour);
    StolOfPadded(2, f.minute);
    DigitsFree(h, ':');
    DigitsFree(m, ':');
    DigitsFree(h, ' ');
    DigitsFree(m, ' ');
    SplitTwo(h, m, ':');
    DateSplits(f);
    SplitTwo(Core(f), h + ":" + m, ' ');
    StolOfPadded(0, f.year);
    StolOfPadded(2, f.month);
    StolOfPadded(2, f.day);
    assert ReadDate(Core(f), h + ":" + m) == Read(ZERO.(year := f.year, month := f.month, day := f.day));
  }

  // ------------------------------------------------------------------ the read past the split seconds

  /** Nothing is left of a split exactly when the text is nothing but separators. */
  lemma {:induction false} SplitToNothing(s: string, c: char)
    ensures Split(s, [c]) == [] <==> forall i :: 0 <= i < |s| ==> s[i] == c
    decreases |s|
  {
    FindMeaning(s, [c], 0);
    match Find(s, [c], 0)
    case None =>
      NonEmptyCons(s, []);
      assert [s] + [] == [s];
      if s != "" {
        assert !OccursAt(s, [c], 0);
        assert s[0..1] == [s[0]];
      }
    case Some(i) =>
      SplitToNothing(s[i + 1..], c);
      assert s[i..i + 1] == [c];
      NonEmptyCons(s[..i], Pieces(s[i + 1..], [c]));
      if i > 0 {
        assert !OccursAt(s, [c], 0);
        assert s[0..1] == [s[0]];
      }
  }

  lemma NonEmptyCons(p: string, v: seq<string>)
    ensures NonEmpty([p] + v) == (if p == "" then [] else [p]) + NonEmpty(v)
  {
    assert ([p] + v)[1..] == v;
  }

  /** The text gets as far as its seconds. */
  predicate HasSeconds(text: string) {
    var v := Split(text, " ");
    |v| == 2 &&
    var date, time := Split(v[0], "-"), Split(v[1], ":");
    |date| == 3 && |time| > 2
    && Stol(date[0]) != None && Stol(date[1]) != None && Stol(date[2]) != None
    && Stol(time[0]) != None && Stol(time[1]) != None
  }

  /** `seconds[0]` is read out of range exactly when the seconds are points only. */
  lemma OutOfBoundsExactly(text: string)
    ensures FromDbString(text) == OutOfBounds <==>
            HasSeconds(text) && forall i :: 0 <= i < |Split(Split(text, " ")[1], ":")[2]| ==>
                                              Split(Split(text, " ")[1], ":")[2][i] == '.'
  {
    if HasSeconds(text) {
      SplitToNothing(Split(Split(text, " ")[1], ":")[2], '.');
    }
  }

  lemma PointIsOutOfBounds(f: Fields, g: Fields)
    requires Broken(f)
    ensures var time := Padded('0', 2, f.hour) + ":" + Padded('0', 2, f.minute) + ":" + ".";
            time != "" && ' ' !in time && ReadTime(g, time) == OutOfBounds
  {
    var h, m := Padded('0', 2, f.hour), Padded('0', 2, f.minute);
    StolOfPadded(2, f.hour);
    StolOfPadded(2, f.minute);
    DigitsFree(h, ':');
    DigitsFree(m, ':');
    SplitThree(h, m, ".", ':');
    SplitToNothing(".", '.');
    DigitsFree(h, ' ');
    DigitsFree(m, ' ');
    TimeOfParts(g, h + ":" + m + ":" + ".", h, m, ".", f.hour, f.minute);
  }

  lemma TimeOfParts(g: Fields, text: string, h: string, m: string, s: string, hour: nat, minute: nat)
    requires Split(text, ":") == [h, m, s] && Stol(h) == Some(hour) && Stol(m) == Some(minute)
    ensures ReadTime(g, text) == ReadSeconds(g.(hour := Unsigned(hour), minute := Unsigned(minute)), s)
  {
  }

  /** Such texts exist: any date and hour with a point for the seconds. */
  lemma PointForSeconds(f: Fields)
    requires Broken(f)
    ensures FromDbString(Core(f) + " " + (Padded('0', 2, f.hour) + ":" + Padded('0', 2, f.minute) + ":" + ".")) == OutOfBounds
  {
    var time := Padded('0', 2, f.hour) + ":" + Padded('0', 2, f.minute) + ":" + ".";
    DateSplits(f);
    StolOfPadded(0, f.year);
    StolOfPadded(2, f.month);
    StolOfPadded(2, f.day);
    PointIsOutOfBounds(f, ZERO.(year := f.year, month := f.month, day := f.day));
    assert ReadDate(Core(f), time) == OutOfBounds;
    SplitTwo(Core(f), time, ' ');
  }

  // ------------------------------------------------------------------ the code

  /** `fromDbStringLocal`: the locals are assigned one by one, so an exception of `stol` leaves
      none of them behind. */
  method FromDbStringLocal(text: string) returns (r: Reading)
    ensures r == FromDbString(text)
  {
    var f := ZERO;
    var v := SplitText(text, " ", false);
    if |v| == 2 {
      var date := SplitText(v[0], "-", false);
      if |date| == 3 {
        var year, month, day := Stol(date[0]), Stol(date[1]), Stol(date[2]);
        if year == None || month == None || day == None {
          return NotANumber;
        }
        f := f.(year := Unsigned(year.value), month := Unsigned(month.value), day := Unsigned(day.value));
        var time := SplitText(v[1], ":", false);
        if 2 < |time| {
          var hour, minute := Stol(time[0]), Stol(time[1]);
          if hour == None || minute == None {
            return NotANumber;
          }
          f := f.(hour := Unsigned(hour.value), minute := Unsigned(minute.value));
          var seconds := SplitText(time[2], ".", false);
          if seconds == [] {
            return OutOfBounds;
          }
          var second := Stol(seconds[0]);
          if second == None {
            return NotANumber;
          }
          f := f.(second := Unsigned(second.value));
          if 1 < |seconds| {
            var micro := Stol(SixDigits(seconds[1]));
            if micro == None {
              return NotANumber;
            }
            f := f.(micro := Unsigned(micro.value));
          }
        }
      }
    }
    return Read(f);
  }
}
