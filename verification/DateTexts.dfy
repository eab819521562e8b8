/**
 * Dates and date-times on the wire (section 5.6 of RFC 3339): `date.isoformat`, `_local` and
 * `_instant` of serialization/reservation.py, and the reading of `starts_at_local` in
 * validation/reservation.py.
 */
module DateTexts {
  import opened Strings
  import opened Calendar

  lemma Around(s: string, i: nat)
    requires i < |s|
    ensures s == s[..i] + [s[i]] + s[i + 1..]
  {
  }

  predicate IsNumber(s: string, w: nat) { |s| == w && AllDigits(s) }

  // ----- dates -----

  function PrintDate(d: Date): (s: string)
    requires ValidDate(d)
    ensures |s| == 10
  {
    Fixed(d.year, 4) + "-" + Fixed(d.month, 2) + "-" + Fixed(d.day, 2)
  }

  predicate ShapedDate(s: string) {
    |s| == 10 && IsNumber(s[..4], 4) && s[4] == '-' && IsNumber(s[5..7], 2) && s[7] == '-' && IsNumber(s[8..], 2)
  }

  function ReadDate(s: string): Date
    requires ShapedDate(s)
  {
    Date(Number(s[..4]), Number(s[5..7]), Number(s[8..]))
  }

  lemma DateRoundTrip(d: Date)
    requires ValidDate(d)
    ensures ShapedDate(PrintDate(d)) && ReadDate(PrintDate(d)) == d
  {
    var s := PrintDate(d);
    DateFits(d);
    FixedRoundTrip(d.year, 4);
    FixedRoundTrip(d.month, 2);
    FixedRoundTrip(d.day, 2);
    assert s[..4] == Fixed(d.year, 4) && s[5..7] == Fixed(d.month, 2) && s[8..] == Fixed(d.day, 2);
  }

  lemma DateFits(d: Date)
    requires ValidDate(d)
    ensures d.year < Pow10(4) && d.month < Pow10(2) && d.day < Pow10(2)
  {
    assert Pow10(2) == 10 * Pow10(1) && Pow10(4) == 10 * Pow10(3) && Pow10(3) == 10 * Pow10(2);
  }

  lemma DateCanonical(s: string)
    requires ShapedDate(s) && ValidDate(ReadDate(s))
    ensures PrintDate(ReadDate(s)) == s
  {
    FixedCanonical(s[..4]);
    FixedCanonical(s[5..7]);
    FixedCanonical(s[8..]);
    assert s == s[..4] + "-" + s[5..7] + "-" + s[8..];
  }

  // Valid dates compare as their texts do.
  lemma DatesCompareAsTexts(a: Date, b: Date)
    requires ValidDate(a) && ValidDate(b)
    ensures Less(PrintDate(a), PrintDate(b)) <==> DateBefore(a, b)
    ensures PrintDate(a) == PrintDate(b) <==> a == b
  {
    DateFits(a);
    DateFits(b);
    LessFixed(a.year, b.year, 4);
    LessFixed(a.month, b.month, 2);
    LessFixed(a.day, b.day, 2);
    LessDash(Fixed(a.month, 2), Fixed(b.month, 2), Fixed(a.day, 2), Fixed(b.day, 2));
    LessDash(Fixed(a.year, 4), Fixed(b.year, 4), Fixed(a.month, 2) + "-" + Fixed(a.day, 2), Fixed(b.month, 2) + "-" + Fixed(b.day, 2));
    DateParts(a);
    DateParts(b);
    DateRoundTrip(a);
    DateRoundTrip(b);
  }

  lemma DateParts(d: Date)
    requires ValidDate(d)
    ensures PrintDate(d) == Fixed(d.year, 4) + "-" + (Fixed(d.month, 2) + "-" + Fixed(d.day, 2))
  {
  }

  lemma LessDash(a: string, b: string, x: string, y: string)
    requires |a| == |b|
    ensures Less(a + "-" + x, b + "-" + y) <==> Less(a, b) || (a == b && Less(x, y))
  {
    LessSeparated(a, b, "-", x, y);
  }

  lemma LessSeparated(a: string, b: string, separator: string, x: string, y: string)
    requires |a| == |b|
    ensures Less(a + separator + x, b + separator + y) <==> Less(a, b) || (a == b && Less(x, y))
  {
    LessFields(a, b, separator + x, separator + y);
    LessFields(separator, separator, x, y);
    LessTotal(separator, separator);
    assert a + separator + x == a + (separator + x) && b + separator + y == b + (separator + y);
  }

  // ----- times of day -----

  datatype Clock = Clock(h: nat, m: nat, s: nat)

  predicate IsClock(c: Clock) { c.h < 60 && c.m < 60 && c.s < 60 }

  function ClockOf(t: WallTime): Clock { Clock(t.hour, t.minute, t.second) }

  function PrintClock(c: Clock): (t: string)
    requires IsClock(c)
    ensures |t| == 8
  {
    Fixed(c.h, 2) + ":" + Fixed(c.m, 2) + ":" + Fixed(c.s, 2)
  }

  predicate ShapedClock(t: string) {
    |t| == 8 && IsNumber(t[..2], 2) && t[2] == ':' && IsNumber(t[3..5], 2) && t[5] == ':' && IsNumber(t[6..], 2)
  }

  function ReadClock(t: string): Clock
    requires ShapedClock(t)
  {
    Clock(Number(t[..2]), Number(t[3..5]), Number(t[6..]))
  }

  lemma ClockRoundTrip(c: Clock)
    requires IsClock(c)
    ensures ShapedClock(PrintClock(c)) && ReadClock(PrintClock(c)) == c
  {
    var t := PrintClock(c);
    assert Pow10(2) == 10 * Pow10(1);
    FixedRoundTrip(c.h, 2);
    FixedRoundTrip(c.m, 2);
    FixedRoundTrip(c.s, 2);
    assert t[..2] == Fixed(c.h, 2) && t[3..5] == Fixed(c.m, 2) && t[6..] == Fixed(c.s, 2);
  }

  lemma ClockCanonical(t: string)
    requires ShapedClock(t) && IsClock(ReadClock(t))
    ensures PrintClock(ReadClock(t)) == t
  {
    FixedCanonical(t[..2]);
    FixedCanonical(t[3..5]);
    FixedCanonical(t[6..]);
    assert t == t[..2] + ":" + t[3..5] + ":" + t[6..];
  }

  lemma ClocksCompareAsTexts(a: WallTime, b: WallTime)
    ensures Less(PrintClock(ClockOf(a)), PrintClock(ClockOf(b))) <==> TimeBefore(a, b)
  {
    assert Pow10(2) == 10 * Pow10(1);
    LessFixed(a.hour, b.hour, 2);
    LessFixed(a.minute, b.minute, 2);
    LessFixed(a.second, b.second, 2);
    var x, y := Fixed(a.minute, 2) + ":" + Fixed(a.second, 2), Fixed(b.minute, 2) + ":" + Fixed(b.second, 2);
    LessSeparated(Fixed(a.minute, 2), Fixed(b.minute, 2), ":", Fixed(a.second, 2), Fixed(b.second, 2));
    LessSeparated(Fixed(a.hour, 2), Fixed(b.hour, 2), ":", x, y);
    assert PrintClock(ClockOf(a)) == Fixed(a.hour, 2) + ":" + x;
    assert PrintClock(ClockOf(b)) == Fixed(b.hour, 2) + ":" + y;
  }

  // ----- wall times, offsets and instants -----

  function PrintWall(t: WallTime): (s: string)
    ensures |s| == 19
  {
    PrintDate(DateOf(t)) + "T" + PrintClock(ClockOf(t))
  }

  lemma WallsCompareAsTexts(a: WallTime, b: WallTime)
    ensures Less(PrintWall(a), PrintWall(b)) <==> Before(a, b)
  {
    DatesCompareAsTexts(DateOf(a), DateOf(b));
    ClocksCompareAsTexts(a, b);
    LessSeparated(PrintDate(DateOf(a)), PrintDate(DateOf(b)), "T", PrintClock(ClockOf(a)), PrintClock(ClockOf(b)));
  }

  // `_instant`: UTC, for years of four digits.
  ghost function InstantText(at: Instant): string { PrintWall(WallOf(at)) + "Z" }

  lemma InstantsCompareAsTexts(m: Instant, n: Instant)
    ensures Less(InstantText(m), InstantText(n)) <==> m < n
  {
    var a, b := WallOf(m), WallOf(n);
    WallsCompareAsTexts(a, b);
    SecondsAscend(a, b);
    LessFields(PrintWall(a), PrintWall(b), "Z", "Z");
    LessTotal("Z", "Z");
  }

  datatype Span = Span(h: nat, m: nat)

  function SpanOf(minutes: nat): Span { Span(minutes / 60, minutes % 60) }

  function Minutes(span: Span): nat { 60 * span.h + span.m }

  lemma MinutesOfSpan(span: Span)
    ensures span.m < 60 ==> SpanOf(Minutes(span)) == span
  {
  }

  function PrintOffset(minutes: int): (s: string)
    requires -1440 < minutes < 1440
    ensures |s| == 6
  {
    if minutes < 0 then "-" + PrintSpan(SpanOf(-minutes)) else "+" + PrintSpan(SpanOf(minutes))
  }

  function PrintSpan(span: Span): (s: string)
    ensures |s| == 5
  {
    Fixed(span.h, 2) + ":" + Fixed(span.m, 2)
  }

  predicate ShapedSpan(s: string) { |s| == 5 && IsNumber(s[..2], 2) && s[2] == ':' && IsNumber(s[3..], 2) }

  function ReadSpan(s: string): Span
    requires ShapedSpan(s)
  {
    Span(Number(s[..2]), Number(s[3..]))
  }

  predicate ShapedOffset(s: string) { |s| == 6 && (s[0] == '+' || s[0] == '-') && ShapedSpan(s[1..]) }

  function ReadOffset(s: string): int
    requires ShapedOffset(s)
  {
    if s[0] == '-' then 0 - Minutes(ReadSpan(s[1..])) else Minutes(ReadSpan(s[1..]))
  }

  predicate OrdinaryOffset(s: string)
    requires ShapedOffset(s)
  {
    ReadSpan(s[1..]).m < 60 && !(s[0] == '-' && ReadOffset(s) == 0)
  }

  lemma SpanRoundTrip(span: Span)
    requires span.h < 100 && span.m < 100
    ensures ShapedSpan(PrintSpan(span)) && ReadSpan(PrintSpan(span)) == span
  {
    var s := PrintSpan(span);
    assert Pow10(2) == 10 * Pow10(1);
    FixedRoundTrip(span.h, 2);
    FixedRoundTrip(span.m, 2);
    assert s[..2] == Fixed(span.h, 2) && s[3..] == Fixed(span.m, 2);
  }

  lemma SpanCanonical(s: string)
    requires ShapedSpan(s)
    ensures PrintSpan(ReadSpan(s)) == s
  {
    FixedCanonical(s[..2]);
    FixedCanonical(s[3..]);
    assert s == s[..2] + ":" + s[3..];
  }

  lemma OffsetRoundTrip(minutes: int)
    requires -1440 < minutes < 1440
    ensures var s := PrintOffset(minutes); ShapedOffset(s) && ReadOffset(s) == minutes && OrdinaryOffset(s)
  {
    var span := SpanOf(if minutes < 0 then -minutes else minutes);
    SpanRoundTrip(span);
    assert PrintOffset(minutes)[1..] == PrintSpan(span);
  }

  lemma OffsetCanonical(s: string)
    requires ShapedOffset(s) && -1440 < ReadOffset(s) < 1440
    ensures PrintOffset(ReadOffset(s)) == s <==> OrdinaryOffset(s)
  {
    if OrdinaryOffset(s) {
      OrdinaryOffsetIsPrinted(s);
    } else {
      OffsetRoundTrip(ReadOffset(s));
    }
  }

  lemma OrdinaryOffsetIsPrinted(s: string)
    requires ShapedOffset(s) && -1440 < ReadOffset(s) < 1440 && OrdinaryOffset(s)
    ensures PrintOffset(ReadOffset(s)) == s
  {
    var span := ReadSpan(s[1..]);
    SpanCanonical(s[1..]);
    SignedSpan(span, s[1..], Minutes(span));
    assert s == [s[0]] + s[1..];
  }

  lemma SignedSpan(span: Span, text: string, minutes: int)
    requires PrintSpan(span) == text
    requires span.m < 60 && minutes == Minutes(span) < 1440
    ensures PrintOffset(minutes) == "+" + text
    ensures minutes > 0 ==> PrintOffset(-minutes) == "-" + text
  {
    MinutesOfSpan(span);
  }

  // `_local`: the wall time with its offset.
  function PrintStart(local: WallTime, offset: int): (s: string)
    requires -1440 < offset < 1440
    ensures |s| == 25
  {
    PrintDate(DateOf(local)) + "T" + PrintClock(ClockOf(local)) + PrintOffset(offset)
  }

  predicate ShapedStart(s: string) {
    |s| == 25 && ShapedDate(s[..10]) && s[10] == 'T' && ShapedClock(s[11..19]) && ShapedOffset(s[19..])
  }

  // Two ways in which `datetime.fromisoformat` may be more lenient than the RFC: 24:00:00 for the end
  // of a day, and offset minutes above 59. Everything here holds for either choice.
  datatype Reading = Reading(midnight24: bool, longOffsets: bool)

  // `TooFar`: a valid date-time whose offset is outside the protocol's range.
  datatype Start = BadFormat | BadValue | TooFar(offset: int) | Parsed(local: WallTime, offset: int)

  function ParseStart(s: string, reading: Reading): Start {
    if !ShapedStart(s) then BadFormat
    else if ReadSpan(s[19..][1..]).m > 59 && !reading.longOffsets then BadValue
    else StartOf(ReadDate(s[..10]), ReadClock(s[11..19]), ReadOffset(s[19..]), reading)
  }

  function StartOf(date: Date, clock: Clock, offset: int, reading: Reading): Start {
    if !ValidDate(date) || clock.m > 59 || clock.s > 59 || !(-1440 < offset < 1440) then BadValue
    else if clock.h < 24 then Within(DateTime(date.year, date.month, date.day, clock.h, clock.m, clock.s), offset)
    else if clock.h > 24 || clock.m != 0 || clock.s != 0 || !reading.midnight24 then BadValue
    else
      var next := NextDay(date);
      if next.year > 9999 then BadValue else Within(DateTime(next.year, next.month, next.day, 0, 0, 0), offset)
  }

  function Within(local: WallTime, offset: int): Start {
    if -840 <= offset <= 840 then Parsed(local, offset) else TooFar(offset)
  }

  lemma StartPieces(local: WallTime, offset: int)
    requires -1440 < offset < 1440
    ensures var s := PrintStart(local, offset);
      && ShapedStart(s) && ReadDate(s[..10]) == DateOf(local) && ReadClock(s[11..19]) == ClockOf(local)
      && ReadOffset(s[19..]) == offset && OrdinaryOffset(s[19..])
  {
    var s := PrintStart(local, offset);
    DateRoundTrip(DateOf(local));
    ClockRoundTrip(ClockOf(local));
    OffsetRoundTrip(offset);
    assert s[..10] == PrintDate(DateOf(local)) && s[11..19] == PrintClock(ClockOf(local));
    assert s[19..] == PrintOffset(offset);
  }

  // What the server prints, it reads back.
  lemma StartRoundTrip(local: WallTime, offset: int, reading: Reading)
    requires -840 <= offset <= 840
    ensures ParseStart(PrintStart(local, offset), reading) == Parsed(local, offset)
  {
    StartPieces(local, offset);
  }

  // Neither lenient spelling, nor the negative zero offset.
  predicate Ordinary(s: string)
    requires ShapedStart(s)
  {
    ReadClock(s[11..19]).h < 24 && OrdinaryOffset(s[19..])
  }

  // A text that is accepted names a wall time and an offset in range, and is the one the server
  // prints for them exactly when it is ordinary.
  lemma StartCanonical(s: string, reading: Reading)
    requires ParseStart(s, reading).Parsed?
    ensures var p := ParseStart(s, reading);
      -840 <= p.offset <= 840 && (PrintStart(p.local, p.offset) == s <==> Ordinary(s))
  {
    if Ordinary(s) {
      OrdinaryIsPrinted(s, reading);
    } else {
      PrintedIsOrdinary(s, reading);
    }
  }

  lemma OrdinaryIsPrinted(s: string, reading: Reading)
    requires ParseStart(s, reading).Parsed? && Ordinary(s)
    ensures var p := ParseStart(s, reading); PrintStart(p.local, p.offset) == s
  {
    StartPrints(s, ParseStart(s, reading).local);
  }

  lemma PrintedIsOrdinary(s: string, reading: Reading)
    requires ParseStart(s, reading).Parsed?
    ensures var p := ParseStart(s, reading); PrintStart(p.local, p.offset) == s ==> Ordinary(s)
  {
    var p := ParseStart(s, reading);
    StartPieces(p.local, p.offset);
  }

  lemma StartPrints(s: string, local: WallTime)
    requires ShapedStart(s) && OrdinaryOffset(s[19..]) && -1440 < ReadOffset(s[19..]) < 1440
    requires ReadDate(s[..10]) == DateOf(local) && ReadClock(s[11..19]) == ClockOf(local)
    ensures PrintStart(local, ReadOffset(s[19..])) == s
  {
    DateCanonical(s[..10]);
    ClockCanonical(s[11..19]);
    OffsetCanonical(s[19..]);
    StartSplits(s);
  }

  lemma StartSplits(s: string)
    requires |s| == 25 && s[10] == 'T'
    ensures s == s[..10] + "T" + s[11..19] + s[19..]
  {
    Around(s[..19], 10);
    assert s[..19][..10] == s[..10] && s[..19][11..] == s[11..19] && s[..19] + s[19..] == s;
  }
}
