/** Instants as broken-down UTC fields, and the two renderings the core uses: the row
    layout "2006-01-02 15:04:05" (YYYY-MM-DD hh:mm:ss) and the RFC 3339 form the JSON
    encoder writes for a time without fractional seconds. */
module Times {
  import opened Wrappers
  import opened Strings

  datatype Time = Time(year: int, month: int, day: int, hour: int, minute: int, second: int)

  /** Go's zero time.Time: January 1 of year 1, 00:00:00 UTC. */
  const Zero: Time := Time(1, 1, 1, 0, 0, 0)

  /** The field ranges of a normalised instant. */
  predicate Valid(t: Time) {
    1 <= t.month <= 12 && 1 <= t.day <= 31 &&
    0 <= t.hour <= 23 && 0 <= t.minute <= 59 && 0 <= t.second <= 59
  }

  /** An instant whose year the four-digit layout field holds without widening. */
  predicate InLayoutRange(t: Time) {
    Valid(t) && 0 <= t.year <= 9999
  }

  /** One chunk of a Go time layout: a numeric field with its zero-padded width, literal
      text, or the zone of a UTC instant ("Z07:00" writes "Z"). */
  datatype LayoutElem = Year4 | Month2 | Day2 | Hour2 | Minute2 | Second2 | Text(c: char) | UtcZone

  /** "2006-01-02 15:04:05", the layout of the table's time columns. */
  const RowLayout: seq<LayoutElem> :=
    [Year4, Text('-'), Month2, Text('-'), Day2, Text(' '), Hour2, Text(':'), Minute2, Text(':'), Second2]

  /** "2006-01-02T15:04:05Z07:00" (time.RFC3339), the layout encoding/json uses. */
  const RFC3339Layout: seq<LayoutElem> :=
    [Year4, Text('-'), Month2, Text('-'), Day2, Text('T'), Hour2, Text(':'), Minute2, Text(':'), Second2, UtcZone]

  /** What one layout chunk writes for `t`. */
  function Chunk(t: Time, e: LayoutElem): string {
    match e
    case Year4 => AppendInt(t.year, 4)
    case Month2 => AppendInt(t.month, 2)
    case Day2 => AppendInt(t.day, 2)
    case Hour2 => AppendInt(t.hour, 2)
    case Minute2 => AppendInt(t.minute, 2)
    case Second2 => AppendInt(t.second, 2)
    case Text(c) => [c]
    case UtcZone => "Z"
  }

  /** What t.Format(layout) writes for the first `n` chunks of the layout, in order. */
  function Render(t: Time, layout: seq<LayoutElem>, n: nat): string
    requires 1 <= n <= |layout|
  {
    if n == 1 then Chunk(t, layout[0]) else Render(t, layout, n - 1) + Chunk(t, layout[n - 1])
  }

  /** t.Format("2006-01-02 15:04:05"). */
  function FormatLayout(t: Time): string {
    Render(t, RowLayout, |RowLayout|)
  }

  /** The RFC 3339 rendering of a UTC instant with no fractional seconds. */
  function FormatRFC3339(t: Time): string {
    Render(t, RFC3339Layout, |RFC3339Layout|)
  }

  /** Rendering one more chunk appends that chunk's text. */
  lemma RenderStep(t: Time, layout: seq<LayoutElem>, n: nat)
    requires 1 < n <= |layout|
    ensures Render(t, layout, n) == Render(t, layout, n - 1) + Chunk(t, layout[n - 1])
  {
  }

  /** What each chunk of the row layout writes: the padded fields and the separators. */
  lemma RowChunks(t: Time)
    ensures Chunk(t, RowLayout[0]) == AppendInt(t.year, 4)
    ensures Chunk(t, RowLayout[1]) == "-" && Chunk(t, RowLayout[3]) == "-" && Chunk(t, RowLayout[5]) == " "
    ensures Chunk(t, RowLayout[7]) == ":" && Chunk(t, RowLayout[9]) == ":"
    ensures Chunk(t, RowLayout[2]) == AppendInt(t.month, 2) && Chunk(t, RowLayout[4]) == AppendInt(t.day, 2)
    ensures Chunk(t, RowLayout[6]) == AppendInt(t.hour, 2) && Chunk(t, RowLayout[8]) == AppendInt(t.minute, 2)
    ensures Chunk(t, RowLayout[10]) == AppendInt(t.second, 2)
  {
  }

  /** The date chunks "2006-01-02" of the row layout: year, month and day, zero-padded and
      separated by '-'. */
  lemma DateText(t: Time)
    ensures Render(t, RowLayout, 5)
         == AppendInt(t.year, 4) + "-" + AppendInt(t.month, 2) + "-" + AppendInt(t.day, 2)
  {
    RowChunks(t);
    RenderStep(t, RowLayout, 2);
    RenderStep(t, RowLayout, 3);
    RenderStep(t, RowLayout, 4);
    RenderStep(t, RowLayout, 5);
  }

  /** The row layout written out: the six fields, zero-padded, between their separators. */
  lemma RowLayoutText(t: Time)
    ensures FormatLayout(t) == AppendInt(t.year, 4) + "-" + AppendInt(t.month, 2) + "-" +
      AppendInt(t.day, 2) + " " + AppendInt(t.hour, 2) + ":" + AppendInt(t.minute, 2) + ":" +
      AppendInt(t.second, 2)
  {
    DateText(t);
    RowChunks(t);
    RenderStep(t, RowLayout, 6);
    RenderStep(t, RowLayout, 7);
    RenderStep(t, RowLayout, 8);
    RenderStep(t, RowLayout, 9);
    RenderStep(t, RowLayout, 10);
    RenderStep(t, RowLayout, 11);
  }

  /** What each chunk of the RFC 3339 layout writes. */
  lemma RFC3339Chunks(t: Time)
    ensures Chunk(t, RFC3339Layout[0]) == AppendInt(t.year, 4)
    ensures Chunk(t, RFC3339Layout[1]) == "-" && Chunk(t, RFC3339Layout[3]) == "-"
    ensures Chunk(t, RFC3339Layout[5]) == "T" && Chunk(t, RFC3339Layout[11]) == "Z"
    ensures Chunk(t, RFC3339Layout[7]) == ":" && Chunk(t, RFC3339Layout[9]) == ":"
    ensures Chunk(t, RFC3339Layout[2]) == AppendInt(t.month, 2) && Chunk(t, RFC3339Layout[4]) == AppendInt(t.day, 2)
    ensures Chunk(t, RFC3339Layout[6]) == AppendInt(t.hour, 2) && Chunk(t, RFC3339Layout[8]) == AppendInt(t.minute, 2)
    ensures Chunk(t, RFC3339Layout[10]) == AppendInt(t.second, 2)
  {
  }

  /** The RFC 3339 layout written out: the row layout's fields with 'T' between date and
      clock, and "Z" for the UTC zone. */
  lemma RFC3339Text(t: Time)
    ensures FormatRFC3339(t) == AppendInt(t.year, 4) + "-" + AppendInt(t.month, 2) + "-" +
      AppendInt(t.day, 2) + "T" + AppendInt(t.hour, 2) + ":" + AppendInt(t.minute, 2) + ":" +
      AppendInt(t.second, 2) + "Z"
  {
    RFC3339Chunks(t);
    RenderStep(t, RFC3339Layout, 2);
    RenderStep(t, RFC3339Layout, 3);
    RenderStep(t, RFC3339Layout, 4);
    RenderStep(t, RFC3339Layout, 5);
    RenderStep(t, RFC3339Layout, 6);
    RenderStep(t, RFC3339Layout, 7);
    RenderStep(t, RFC3339Layout, 8);
    RenderStep(t, RFC3339Layout, 9);
    RenderStep(t, RFC3339Layout, 10);
    RenderStep(t, RFC3339Layout, 11);
    RenderStep(t, RFC3339Layout, 12);
  }

  /** Reads a "YYYY-MM-DD hh:mm:ss" string back into its fields. */
  function ParseLayout(s: string): Option<Time> {
    if |s| == 19 && s[4] == '-' && s[7] == '-' && s[10] == ' ' && s[13] == ':' && s[16] == ':' &&
       AllDigits(s[0..4]) && AllDigits(s[5..7]) && AllDigits(s[8..10]) &&
       AllDigits(s[11..13]) && AllDigits(s[14..16]) && AllDigits(s[17..19])
    then
      Some(Time(ParseDigits(s[0..4]), ParseDigits(s[5..7]), ParseDigits(s[8..10]),
                ParseDigits(s[11..13]), ParseDigits(s[14..16]), ParseDigits(s[17..19])))
    else
      None
  }

  /** The layout rendering of an instant in range is 19 characters long and loses nothing:
      parsing it gives the instant back. */
  lemma LayoutRoundTrip(t: Time)
    requires InLayoutRange(t)
    ensures |FormatLayout(t)| == 19
    ensures ParseLayout(FormatLayout(t)) == Some(t)
  {
    assert Pow10(2) == 100 && Pow10(4) == 10000;
    FixedWidth(t.year, 4);
    FixedWidth(t.month, 2);
    FixedWidth(t.day, 2);
    FixedWidth(t.hour, 2);
    FixedWidth(t.minute, 2);
    FixedWidth(t.second, 2);
    var y, mo, d := AppendInt(t.year, 4), AppendInt(t.month, 2), AppendInt(t.day, 2);
    var h, mi, se := AppendInt(t.hour, 2), AppendInt(t.minute, 2), AppendInt(t.second, 2);
    LayoutShape(y, mo, d, h, mi, se);
    var s := FormatLayout(t);
    RowLayoutText(t);
    assert ParseLayout(s) == Some(Time(ParseDigits(y), ParseDigits(mo), ParseDigits(d),
                                       ParseDigits(h), ParseDigits(mi), ParseDigits(se)));
  }

  /** Where each field and separator sits in a rendering built from fixed-width fields. */
  lemma LayoutShape(y: string, mo: string, d: string, h: string, mi: string, se: string)
    requires |y| == 4 && |mo| == 2 && |d| == 2 && |h| == 2 && |mi| == 2 && |se| == 2
    ensures var s := y + "-" + mo + "-" + d + " " + h + ":" + mi + ":" + se;
      |s| == 19 && s[4] == '-' && s[7] == '-' && s[10] == ' ' && s[13] == ':' && s[16] == ':' &&
      s[0..4] == y && s[5..7] == mo && s[8..10] == d &&
      s[11..13] == h && s[14..16] == mi && s[17..19] == se
  {
    var s := y + "-" + mo + "-" + d + " " + h + ":" + mi + ":" + se;
    assert s[0..4] == y;
    assert s[5..7] == mo;
    assert s[8..10] == d;
    assert s[11..13] == h;
    assert s[14..16] == mi;
    assert s[17..19] == se;
  }

  /** Two instants in range with the same rendering are the same instant. */
  lemma LayoutInjective(t1: Time, t2: Time)
    requires InLayoutRange(t1) && InLayoutRange(t2)
    requires FormatLayout(t1) == FormatLayout(t2)
    ensures t1 == t2
  {
    LayoutRoundTrip(t1);
    LayoutRoundTrip(t2);
  }

  /** The zero instant renders literally, never as an empty placeholder. */
  lemma ZeroRendering()
    ensures FormatLayout(Zero) == "0001-01-01 00:00:00"
    ensures FormatRFC3339(Zero) == "0001-01-01T00:00:00Z"
  {
    RowLayoutText(Zero);
    RFC3339Text(Zero);
    ZeroFields();
    ZeroTexts();
  }

  /** The zero instant's padded fields joined by each layout's separators. */
  lemma ZeroTexts()
    ensures "0001" + "-" + "01" + "-" + "01" + " " + "00" + ":" + "00" + ":" + "00" == "0001-01-01 00:00:00"
    ensures "0001" + "-" + "01" + "-" + "01" + "T" + "00" + ":" + "00" + ":" + "00" + "Z" == "0001-01-01T00:00:00Z"
  {
  }

  /** The fields of the zero instant: year 1 as "0001", and the one-digit fields padded. */
  lemma ZeroFields()
    ensures AppendInt(1, 4) == "0001" && AppendInt(1, 2) == "01" && AppendInt(0, 2) == "00"
  {
    assert Zeros(3) == "000";
    OneDigitField(1);
    OneDigitField(0);
  }
}
