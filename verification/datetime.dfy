/**
  The body's date text. The event carries the monitoring system's raw
  timestamp; the date-time library parses it (abstracted here as a function
  parameter) and the notifier renders the result as zero-padded
  "MM月DD日 HH時MM分", or as "不明" when parsing fails.
 */
module DateTimeText {
  import opened Wrappers
  import opened EventModel

  /** A calendar date and wall-clock time, as the date-time library yields it. */
  datatype NaiveDateTime = NaiveDateTime(year: int, month: nat, day: nat, hour: nat, minute: nat, second: nat)
  {
    /** The ranges the library guarantees for a parsed value (second 60 is a leap second). */
    predicate Valid()
    {
      1 <= month <= 12 && 1 <= day <= 31 && hour < 24 && minute < 60 && second <= 60
    }
  }

  type ValidDateTime = d: NaiveDateTime | d.Valid() witness NaiveDateTime(1970, 1, 1, 0, 0, 0)

  /** The placeholder shown when the raw timestamp cannot be parsed. */
  const UnknownDate: string := "不明"

  /** The four fields the local rendering shows, each of at most two digits. */
  datatype Stamp = Stamp(month: nat, day: nat, hour: nat, minute: nat)
  {
    predicate Fits()
    {
      month < 100 && day < 100 && hour < 100 && minute < 100
    }
  }

  function StampOf(d: ValidDateTime): (st: Stamp)
    ensures st.Fits()
  {
    Stamp(d.month, d.day, d.hour, d.minute)
  }

  predicate IsDigit(c: char)
  {
    '0' <= c <= '9'
  }

  function DigitValue(c: char): (n: nat)
    requires IsDigit(c)
    ensures n < 10
  {
    c as int - '0' as int
  }

  function Digit(n: nat): (c: char)
    requires n < 10
    ensures IsDigit(c) && DigitValue(c) == n
  {
    ('0' as int + n) as char
  }

  /** A number below 100 written with exactly two decimal digits, leading zero included. */
  function Pad2(n: nat): (r: string)
    requires n < 100
    ensures |r| == 2 && IsDigit(r[0]) && IsDigit(r[1])
    ensures DigitValue(r[0]) * 10 + DigitValue(r[1]) == n
  {
    [Digit(n / 10), Digit(n % 10)]
  }

  /** The local rendering of a stamp: "MM月DD日 HH時MM分". */
  function FormatStamp(st: Stamp): (r: string)
    requires st.Fits()
    ensures |r| == 13
  {
    Pad2(st.month) + "月" + Pad2(st.day) + "日 " + Pad2(st.hour) + "時" + Pad2(st.minute) + "分"
  }

  /** The value of the two digits at positions `i` and `i + 1`. */
  function TwoDigits(s: string, i: nat): nat
    requires i + 1 < |s| && IsDigit(s[i]) && IsDigit(s[i + 1])
  {
    DigitValue(s[i]) * 10 + DigitValue(s[i + 1])
  }

  /** Whether `s` has the shape of a local rendering. */
  predicate IsLocalShape(s: string)
  {
    && |s| == 13
    && IsDigit(s[0]) && IsDigit(s[1]) && s[2] == '月'
    && IsDigit(s[3]) && IsDigit(s[4]) && s[5] == '日' && s[6] == ' '
    && IsDigit(s[7]) && IsDigit(s[8]) && s[9] == '時'
    && IsDigit(s[10]) && IsDigit(s[11]) && s[12] == '分'
  }

  /** Reads a local rendering back into the stamp it shows. */
  function ReadLocal(s: string): (r: Option<Stamp>)
    ensures r.Some? <==> IsLocalShape(s)
    ensures r.Some? ==> r.value.Fits()
  {
    if IsLocalShape(s) then
      Some(Stamp(TwoDigits(s, 0), TwoDigits(s, 3), TwoDigits(s, 7), TwoDigits(s, 10)))
    else
      None
  }

  /** Reading a rendering gives back the stamp that was rendered. */
  lemma ReadFormatStamp(st: Stamp)
    requires st.Fits()
    ensures ReadLocal(FormatStamp(st)) == Some(st)
  {
  }

  /** A string that reads as a stamp is exactly that stamp's rendering. */
  lemma FormatReadLocal(s: string)
    requires ReadLocal(s).Some?
    ensures FormatStamp(ReadLocal(s).value) == s
  {
  }

  /**
    The body's date text. A parse failure never stops the notification: it
    yields the placeholder, and only then does the placeholder appear; a
    successful parse yields a rendering that reads back as the parsed month,
    day, hour and minute.
   */
  function Datetime(e: Event, parse: string -> Option<ValidDateTime>): (r: string)
    ensures r == UnknownDate <==> parse(e.datetime).None?
    ensures parse(e.datetime).Some? ==> ReadLocal(r) == Some(StampOf(parse(e.datetime).value))
  {
    match parse(e.datetime)
    case Some(d) =>
      ReadFormatStamp(StampOf(d));
      FormatStamp(StampOf(d))
    case None => UnknownDate
  }
}
