/** The countdown text format: `fmt(sec)` renders whole seconds as `MM:SS`,
    and `ParseClock` reads such a text back. */
module Format {
  import opened Wrappers
  import opened Text

  /** The text `fmt` builds from a minute count and a second count. */
  function Clock(minutes: nat, seconds: nat): string
  {
    PadTwo(Decimal(minutes)) + ":" + PadTwo(Decimal(seconds))
  }

  /** The fields of `Clock(minutes, seconds)` sit around the third character
      from the end and read back as the two counts. */
  lemma ClockFields(minutes: nat, seconds: nat)
    requires seconds < 60
    ensures |Clock(minutes, seconds)| >= 5
    ensures Clock(minutes, seconds) == PadTwo(Decimal(minutes)) + [':'] + PadTwo(Decimal(seconds))
    ensures |PadTwo(Decimal(seconds))| == 2
    ensures AllDigits(PadTwo(Decimal(minutes))) && ParseDecimal(PadTwo(Decimal(minutes))) == minutes
    ensures AllDigits(PadTwo(Decimal(seconds))) && ParseDecimal(PadTwo(Decimal(seconds))) == seconds
    ensures minutes < 100 ==> |Clock(minutes, seconds)| == 5
  {
    PadTwoValue(Decimal(minutes));
    PadTwoValue(Decimal(seconds));
  }

  /** `Math.max(0, sec)`. */
  function Clamp(sec: int): (total: nat)
    ensures total >= sec && (total > 0 ==> total == sec)
  {
    if sec < 0 then 0 else sec
  }

  /** Whole minutes and leftover seconds put a count back together. */
  lemma MinutesSeconds(total: nat)
    ensures (total / 60) * 60 + total % 60 == total && total % 60 < 60
    ensures total < 6000 ==> total / 60 < 100
  {
  }

  /** `fmt(sec)`: clamps at zero, then minutes and seconds, each padded to at
      least two digits, around a colon. The seconds field is always two
      digits; the minutes field grows past two digits from 100 minutes on. */
  function Fmt(sec: int): (r: string)
    ensures |r| >= 5 && r[|r| - 3] == ':'
    ensures sec < 6000 ==> |r| == 5
    ensures sec <= 0 ==> r == "00:00"
  {
    MinutesSeconds(Clamp(sec));
    ClockFields(Clamp(sec) / 60, Clamp(sec) % 60);
    Clock(Clamp(sec) / 60, Clamp(sec) % 60)
  }

  /** `Fmt(sec)` is the padded whole minutes and the padded leftover
      seconds of the clamped count, around a colon; both fields are digit
      strings of at least two characters, the seconds exactly two. */
  lemma FmtFields(sec: int)
    ensures Fmt(sec) == PadTwo(Decimal(Clamp(sec) / 60)) + [':'] + PadTwo(Decimal(Clamp(sec) % 60))
    ensures AllDigits(PadTwo(Decimal(Clamp(sec) / 60))) && |PadTwo(Decimal(Clamp(sec) / 60))| >= 2
    ensures AllDigits(PadTwo(Decimal(Clamp(sec) % 60))) && |PadTwo(Decimal(Clamp(sec) % 60))| == 2
    ensures ParseDecimal(PadTwo(Decimal(Clamp(sec) / 60))) == Clamp(sec) / 60
    ensures ParseDecimal(PadTwo(Decimal(Clamp(sec) % 60))) == Clamp(sec) % 60 < 60
  {
    MinutesSeconds(Clamp(sec));
    ClockFields(Clamp(sec) / 60, Clamp(sec) % 60);
  }

  /** Reads a `MM:SS` text: at least two minute digits, a colon, exactly two
      second digits below 60; the value is the total number of seconds. */
  function ParseClock(text: string): Option<nat>
  {
    ParseFields(Split(text, ':'))
  }

  /** The value of the colon-separated fields of a countdown text. */
  function ParseFields(parts: seq<string>): Option<nat>
  {
    if |parts| == 2 && |parts[0]| >= 2 && AllDigits(parts[0]) && |parts[1]| == 2 && AllDigits(parts[1])
       && ParseDecimal(parts[1]) < 60
    then Some(ParseDecimal(parts[0]) * 60 + ParseDecimal(parts[1]))
    else None
  }

  lemma FieldsValue(mm: string, ss: string)
    requires AllDigits(mm) && AllDigits(ss) && |mm| >= 2 && |ss| == 2 && ParseDecimal(ss) < 60
    ensures ParseFields([mm, ss]) == Some(ParseDecimal(mm) * 60 + ParseDecimal(ss))
  {
  }

  /** A minutes field and a seconds field around one colon read back as
      their total, provided the fields have the widths `ParseClock` wants. */
  lemma ParseClockOf(text: string, mm: string, ss: string)
    requires text == mm + [':'] + ss
    requires AllDigits(mm) && AllDigits(ss) && |mm| >= 2 && |ss| == 2 && ParseDecimal(ss) < 60
    ensures ParseClock(text) == Some(ParseDecimal(mm) * 60 + ParseDecimal(ss))
  {
    assert ':' !in mm by {
      forall i | 0 <= i < |mm| ensures mm[i] != ':' { assert IsDigit(mm[i]); }
    }
    assert ':' !in ss by {
      forall i | 0 <= i < |ss| ensures ss[i] != ':' { assert IsDigit(ss[i]); }
    }
    assert [mm, ss][1..] == [ss];
    assert Join([mm, ss], ':') == mm + [':'] + ss;
    SplitOfJoin([mm, ss], ':');
    FieldsValue(mm, ss);
  }

  /** Reading a formatted countdown gives back the clamped number of seconds. */
  lemma FmtRoundTrip(sec: int)
    ensures ParseClock(Fmt(sec)) == Some(if sec < 0 then 0 else sec)
  {
    var mm, ss := PadTwo(Decimal(Clamp(sec) / 60)), PadTwo(Decimal(Clamp(sec) % 60));
    FmtFields(sec);
    MinutesSeconds(Clamp(sec));
    ParseClockOf(Fmt(sec), mm, ss);
    assert ParseDecimal(mm) * 60 + ParseDecimal(ss) == if sec < 0 then 0 else sec;
  }

  /** `Fmt` of a count below 6000 seconds, from its two-digit fields. */
  lemma FmtOf(sec: nat, m: nat, t: nat)
    requires sec < 6000 && m == sec / 60 && t == sec % 60
    ensures Fmt(sec) == PadTwo(Decimal(m)) + ":" + PadTwo(Decimal(t))
  {
    FmtFields(sec);
  }

  lemma Fmt990()
    ensures Fmt(990) == "16:30"
  {
    FmtOf(990, 16, 30);
    DecimalTwoDigits(16);
    DecimalTwoDigits(30);
    assert DigitChar(1) == '1' && DigitChar(6) == '6' && DigitChar(3) == '3' && DigitChar(0) == '0';
  }

  lemma Fmt290()
    ensures Fmt(290) == "04:50"
  {
    FmtOf(290, 4, 50);
    DecimalTwoDigits(50);
    assert Decimal(4) == [DigitChar(4)] && DigitChar(4) == '4' && DigitChar(5) == '5' && DigitChar(0) == '0';
  }

  lemma Fmt300()
    ensures Fmt(300) == "05:00"
  {
    FmtOf(300, 5, 0);
    assert Decimal(5) == [DigitChar(5)] && Decimal(0) == [DigitChar(0)];
    assert DigitChar(5) == '5' && DigitChar(0) == '0';
  }

  /** Distinct non-negative second counts are displayed differently. */
  lemma FmtInjective(a: int, b: int)
    requires a >= 0 && b >= 0 && Fmt(a) == Fmt(b)
    ensures a == b
  {
    FmtRoundTrip(a);
    FmtRoundTrip(b);
  }
}
