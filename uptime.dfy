/**
 The uptime shown in the summary: seconds split into hours, minutes and
 seconds, written as `"{h}h {m}m {s}s"`, with 0 standing in for an uptime that
 is missing or not a number. A parser for that text is the partner that pins
 the rendering down: parsing the text gives back the seconds.
 */
module Uptime {
  import opened Wrappers
  import opened Text
  import opened Stats

  datatype Clock = Clock(hours: int, minutes: int, seconds: int)

  /** The seconds a clock reading stands for. */
  function Total(c: Clock): int
  {
    c.hours * 3600 + c.minutes * 60 + c.seconds
  }

  /** The two `divmod` calls of `_format_uptime`: hours and a remainder by 3600,
      then minutes and seconds of the remainder by 60. Python's `divmod` floors,
      and for a positive divisor so do Dafny's `/` and `%`, negative totals
      included. */
  function Split(total: int): (c: Clock)
    ensures 0 <= c.minutes < 60 && 0 <= c.seconds < 60
    ensures Total(c) == total
  {
    var remainder := total % 3600;
    Clock(total / 3600, remainder / 60, remainder % 60)
  }

  /** `'{}h {}m {}s'.format(hours, minutes, seconds)`. */
  function Render(c: Clock): string
  {
    IntStr(c.hours) + "h " + IntStr(c.minutes) + "m " + IntStr(c.seconds) + "s"
  }

  /** Reads back text of the form `"{h}h {m}m {s}s"`. */
  function ParseClock(s: string): Option<Clock>
  {
    match SplitOn(s, 'h')
    case None => None
    case Some((hs, rest)) =>
      if rest == [] || rest[0] != ' ' then None else
      match SplitOn(rest[1..], 'm')
      case None => None
      case Some((ms, rest')) =>
        if rest' == [] || rest'[0] != ' ' then None else
        match SplitOn(rest'[1..], 's')
        case None => None
        case Some((ss, tail)) =>
          if tail != [] then None else
          match (ParseInt(hs), ParseInt(ms), ParseInt(ss))
          case (Some(h), Some(m), Some(sec)) => Some(Clock(h, m, sec))
          case _ => None
  }

  /** The seconds an uptime text stands for. */
  function ParseUptime(s: string): Option<int>
  {
    match ParseClock(s)
    case Some(c) => Some(Total(c))
    case None => None
  }

  lemma NoLetterInIntStr(i: int, c: char)
    requires c != '-' && !IsDigit(c)
    ensures c !in IntStr(i)
  {
  }

  /** Rendering a clock and reading it back gives the same clock. */
  lemma RenderRoundTrip(c: Clock)
    ensures ParseClock(Render(c)) == Some(c)
  {
    NoLetterInIntStr(c.hours, 'h');
    NoLetterInIntStr(c.minutes, 'm');
    NoLetterInIntStr(c.seconds, 's');
    IntStrRoundTrip(c.hours);
    IntStrRoundTrip(c.minutes);
    IntStrRoundTrip(c.seconds);
    ParseClockOf(IntStr(c.hours), IntStr(c.minutes), IntStr(c.seconds), c);
  }

  /** Any three fields free of their unit letters that read back as the
      clock's numbers make up a text that reads back as that clock. */
  lemma ParseClockOf(hs: string, ms: string, ss: string, c: Clock)
    requires 'h' !in hs && 'm' !in ms && 's' !in ss
    requires ParseInt(hs) == Some(c.hours) && ParseInt(ms) == Some(c.minutes) && ParseInt(ss) == Some(c.seconds)
    ensures ParseClock(hs + "h " + ms + "m " + ss + "s") == Some(c)
  {
    var rest2 := " " + ss + "s";
    var rest1 := " " + ms + "m" + rest2;
    assert hs + "h " + ms + "m " + ss + "s" == hs + ['h'] + rest1;
    SplitOnFirst(hs, 'h', rest1);
    assert rest1[1..] == ms + ['m'] + rest2;
    SplitOnFirst(ms, 'm', rest2);
    assert rest2[1..] == ss + ['s'] + "";
    SplitOnFirst(ss, 's', "");
  }

  /** `_format_uptime(seconds)`: the text names exactly the given number of
      seconds, for every integer. */
  function FormatUptime(total: int): (r: string)
    ensures ParseUptime(r) == Some(total)
  {
    RenderRoundTrip(Split(total));
    Render(Split(total))
  }

  /** Hours, minutes and seconds are unique: any reading with minutes and
      seconds below 60 that adds up to the total is the one shown. */
  lemma {:induction false} FormatUptimeShape(total: int, c: Clock)
    requires 0 <= c.minutes < 60 && 0 <= c.seconds < 60
    requires Total(c) == total
    ensures FormatUptime(total) == Render(c)
  {
    var d := Split(total);
    var rc := c.minutes * 60 + c.seconds;
    var rd := d.minutes * 60 + d.seconds;
    assert 0 <= rc < 3600 && 0 <= rd < 3600;
    assert (c.hours - d.hours) * 3600 == rd - rc;
    assert c.hours == d.hours;
    assert (c.minutes - d.minutes) * 60 == d.seconds - c.seconds;
    assert c == d;
  }

  /** The uptime as displayed (the `try` around `_format_uptime`): it names
      the value of the `uptime` key when that is a number, and 0 seconds when
      the key is missing (the default of `.get`) or its value is text
      (`divmod` raises and the bare `except` formats 0 instead). */
  function UptimeText(u: Option<Value>): (r: string)
    ensures ParseUptime(r) == Some(if u.Some? && u.value.Num? then u.value.n else 0)
  {
    FormatUptime(UptimeSeconds(u))
  }

  /** The seconds the uptime is formatted from. */
  function UptimeSeconds(u: Option<Value>): int
  {
    match u
    case Some(Num(n)) => n
    case _ => 0
  }

  /** A missing or non-numeric uptime is shown as `"0h 0m 0s"`. */
  lemma UptimeFallback(u: Option<Value>)
    requires u.None? || u.value.Str?
    ensures UptimeText(u) == "0h 0m 0s"
  {
    FormatUptimeZero();
  }

  lemma FormatUptimeZero()
    ensures FormatUptime(0) == "0h 0m 0s"
  {
    FormatUptimeShape(0, Clock(0, 0, 0));
    SmallNumbers();
  }

  lemma FormatUptimeExamples()
    ensures FormatUptime(3661) == "1h 1m 1s"
    ensures FormatUptime(59) == "0h 0m 59s"
  {
    FormatUptimeShape(3661, Clock(1, 1, 1));
    FormatUptimeShape(59, Clock(0, 0, 59));
    SmallNumbers();
  }

  lemma SmallNumbers()
    ensures Render(Clock(0, 0, 0)) == "0h 0m 0s"
    ensures Render(Clock(1, 1, 1)) == "1h 1m 1s"
    ensures Render(Clock(0, 0, 59)) == "0h 0m 59s"
  {
    assert DigitChar(0) == '0' && DigitChar(1) == '1' && DigitChar(5) == '5' && DigitChar(9) == '9';
    assert IntStr(0) == "0" && IntStr(1) == "1";
    assert IntStr(59) == NatStr(5) + [DigitChar(9)] == "59";
  }
}
