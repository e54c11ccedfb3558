/** `format_timestamp`: a time becomes a WebVTT cue timestamp `HH:MM:SS.mmm`
    (section 4.1 "WebVTT file structure" of the W3C specification "WebVTT: The Web
    Video Text Tracks Format"). Times are whole milliseconds. */
module Timestamp {
  import opened Wrappers

  const MsPerSecond: nat := 1000
  const MsPerMinute: nat := 60000
  const MsPerHour: nat := 3600000

  predicate IsDigit(c: char)
  {
    '0' <= c <= '9'
  }

  predicate AllDigits(s: string)
  {
    forall c <- s :: IsDigit(c)
  }

  function DigitChar(d: nat): (c: char)
    requires d < 10
    ensures IsDigit(c)
  {
    ('0' as int + d) as char
  }

  function DigitValue(c: char): (d: nat)
    requires IsDigit(c)
    ensures d < 10
  {
    c as int - '0' as int
  }

  /** The decimal numeral of `n` as Python's `str(n)` writes it: at least one
      digit, and no leading zero unless `n` is zero. */
  function Decimal(n: nat): (r: string)
    ensures |r| >= 1
    ensures |r| > 1 ==> r[0] != '0'
  {
    if n < 10 then [DigitChar(n)] else Decimal(n / 10) + [DigitChar(n % 10)]
  }

  /** A numeral is made of digits only. */
  lemma {:induction false} DecimalDigits(n: nat)
    ensures AllDigits(Decimal(n))
    decreases n
  {
    if n >= 10 {
      DecimalDigits(n / 10);
    }
  }

  /** The number a string of decimal digits denotes. */
  function Value(s: string): nat
    requires AllDigits(s)
  {
    if s == [] then 0 else Value(s[..|s| - 1]) * 10 + DigitValue(s[|s| - 1])
  }

  function Pow10(k: nat): (r: nat)
    ensures r >= 1
  {
    if k == 0 then 1 else 10 * Pow10(k - 1)
  }

  function Zeros(k: nat): (r: string)
    ensures |r| == k
  {
    if k == 0 then "" else "0" + Zeros(k - 1)
  }

  lemma {:induction false} ZerosDigits(k: nat)
    ensures AllDigits(Zeros(k))
    decreases k
  {
    if k > 0 {
      ZerosDigits(k - 1);
    }
  }

  /** Python's `f"{n:0{width}d}"`: the numeral of `n`, left-padded with zeros to
      at least `width` characters. */
  function Pad(n: nat, width: nat): (r: string)
    ensures |r| >= width
  {
    var d := Decimal(n);
    if |d| < width then Zeros(width - |d|) + d else d
  }

  /** A padded numeral is made of digits only. */
  lemma PadDigits(n: nat, width: nat)
    ensures AllDigits(Pad(n, width))
  {
    var d := Decimal(n);
    DecimalDigits(n);
    if |d| < width {
      ZerosDigits(width - |d|);
      assert forall c <- Zeros(width - |d|) + d :: c in Zeros(width - |d|) || c in d;
    }
  }

  /** Reading back the numeral of `n` gives `n`. */
  lemma {:induction false} ValueOfDecimal(n: nat)
    ensures AllDigits(Decimal(n)) && Value(Decimal(n)) == n
    decreases n
  {
    DecimalDigits(n);
    if n >= 10 {
      ValueOfDecimal(n / 10);
      var d := Decimal(n);
      assert d[..|d| - 1] == Decimal(n / 10);
    }
  }

  /** A leading zero does not change the value of a numeral. */
  lemma {:induction false} ValueOfLeadingZero(s: string)
    requires AllDigits(s)
    ensures AllDigits("0" + s) && Value("0" + s) == Value(s)
    decreases |s|
  {
    if s != [] {
      var z := "0" + s;
      assert z[..|z| - 1] == "0" + s[..|s| - 1];
      ValueOfLeadingZero(s[..|s| - 1]);
    }
  }

  lemma {:induction false} ValueOfZerosPrefix(k: nat, s: string)
    requires AllDigits(s)
    ensures AllDigits(Zeros(k) + s) && Value(Zeros(k) + s) == Value(s)
    decreases k
  {
    if k == 0 {
      assert Zeros(k) + s == s;
    } else {
      ValueOfZerosPrefix(k - 1, s);
      assert Zeros(k) == "0" + Zeros(k - 1);
      assert Zeros(k) + s == "0" + (Zeros(k - 1) + s);
      ValueOfLeadingZero(Zeros(k - 1) + s);
    }
  }

  /** Padding never changes the number written. */
  lemma ValueOfPad(n: nat, width: nat)
    ensures AllDigits(Pad(n, width)) && Value(Pad(n, width)) == n
  {
    PadDigits(n, width);
    var d := Decimal(n);
    ValueOfDecimal(n);
    if |d| < width {
      ValueOfZerosPrefix(width - |d|, d);
    }
  }

  /** A number below 10^k has at most k digits. */
  lemma {:induction false} DecimalLength(n: nat, k: nat)
    requires 1 <= k && n < Pow10(k)
    ensures |Decimal(n)| <= k
    decreases n
  {
    if n >= 10 {
      assert k >= 2;
      assert n / 10 < Pow10(k - 1);
      DecimalLength(n / 10, k - 1);
    }
  }

  /** A number below 10^k padded to width k has exactly k characters. */
  lemma PadLength(n: nat, k: nat)
    requires 1 <= k && n < Pow10(k)
    ensures |Pad(n, k)| == k
  {
    DecimalLength(n, k);
  }

  /** The four fields of `format_timestamp`: whole hours, then minutes within
      the hour, seconds within the minute and milliseconds within the second. */
  function Hours(t: nat): nat { t / MsPerHour }
  function Minutes(t: nat): nat { (t % MsPerHour) / MsPerMinute }
  function Seconds(t: nat): nat { (t % MsPerMinute) / MsPerSecond }
  function Millis(t: nat): nat { t % MsPerSecond }

  /** The four fields are in range and add up to the time they came from. */
  lemma FieldsOf(t: nat)
    ensures Minutes(t) < 60 && Seconds(t) < 60 && Millis(t) < 1000
    ensures t == TimeOf(Hours(t), Minutes(t), Seconds(t), Millis(t))
  {
    var h, r1 := t / 3600000, t % 3600000;
    var m, r2 := r1 / 60000, r1 % 60000;
    var s, ms := r2 / 1000, r2 % 1000;
    assert t == (h * 60 + m) * 60000 + r2 by {
      assert t == h * 3600000 + r1;
      assert r1 == m * 60000 + r2;
    }
    assert t % 60000 == r2;
    assert t == ((h * 60 + m) * 60 + s) * 1000 + ms by {
      assert r2 == s * 1000 + ms;
    }
    assert t % 1000 == ms;
  }

  /** `format_timestamp(seconds)` for a time of `t` milliseconds. */
  function FormatTimestamp(t: nat): string
  {
    Pad(Hours(t), 2) + (":" + Pad(Minutes(t), 2) + ":" + Pad(Seconds(t), 2) + "." + Pad(Millis(t), 3))
  }

  /** A WebVTT timestamp with hours: two or more hour digits, `:`, two minute
      digits below 60, `:`, two second digits below 60, `.`, three millisecond
      digits. Yields the time it denotes in milliseconds. */
  function ParseTimestamp(s: string): Option<nat>
  {
    if |s| < 12 then None else ParseFields(s[..|s| - 10], s[|s| - 10..])
  }

  /** The hour digits `hh`, then `:MM:SS.mmm` in `tail`. */
  function ParseFields(hh: string, tail: string): Option<nat>
    requires |tail| == 10
  {
    var mm, ss, fff := tail[1..3], tail[4..6], tail[7..];
    if tail[0] == ':' && tail[3] == ':' && tail[6] == '.'
       && AllDigits(hh) && AllDigits(mm) && AllDigits(ss) && AllDigits(fff)
       && Value(mm) < 60 && Value(ss) < 60
    then Some(TimeOf(Value(hh), Value(mm), Value(ss), Value(fff)))
    else None
  }

  /** The time, in milliseconds, of a clock reading. */
  function TimeOf(h: nat, m: nat, s: nat, ms: nat): nat
  {
    h * MsPerHour + m * MsPerMinute + s * MsPerSecond + ms
  }

  /** The parser splits off the last ten characters as `:MM:SS.mmm`. */
  lemma ParseTimestampSplits(hh: string, tail: string)
    requires |hh| >= 2 && |tail| == 10
    ensures ParseTimestamp(hh + tail) == ParseFields(hh, tail)
  {
    var r := hh + tail;
    assert r[..|r| - 10] == hh;
    assert r[|r| - 10..] == tail;
  }

  /** The `:MM:SS.mmm` part `format_timestamp` writes: each field sits where
      the parser looks for it. */
  lemma TailLayout(mm: string, ss: string, fff: string)
    requires |mm| == 2 && |ss| == 2 && |fff| == 3
    ensures var tail := ":" + mm + ":" + ss + "." + fff;
      && |tail| == 10 && tail[0] == ':' && tail[3] == ':' && tail[6] == '.'
      && tail[1..3] == mm && tail[4..6] == ss && tail[7..] == fff
  {
  }

  /** Every formatted time is a well-formed WebVTT timestamp that denotes
      exactly that time. */
  lemma FormatTimestampParses(t: nat)
    ensures ParseTimestamp(FormatTimestamp(t)) == Some(t)
  {
    FieldsOf(t);
    PadLength(Minutes(t), 2);
    PadLength(Seconds(t), 2);
    PadLength(Millis(t), 3);
    ValueOfPad(Hours(t), 2);
    ValueOfPad(Minutes(t), 2);
    ValueOfPad(Seconds(t), 2);
    ValueOfPad(Millis(t), 3);
    var hh, mm, ss, fff := Pad(Hours(t), 2), Pad(Minutes(t), 2), Pad(Seconds(t), 2), Pad(Millis(t), 3);
    var tail := ":" + mm + ":" + ss + "." + fff;
    TailLayout(mm, ss, fff);
    ParseTimestampSplits(hh, tail);
  }

  /** A formatted time is 12 characters long exactly while it is under 100
      hours: the hour field has two digits, and more after that. */
  lemma FormatTimestampLength(t: nat)
    ensures |FormatTimestamp(t)| == 12 <==> t < 100 * MsPerHour
  {
    FieldsOf(t);
    PadLength(Minutes(t), 2);
    PadLength(Seconds(t), 2);
    PadLength(Millis(t), 3);
    if t < 100 * MsPerHour {
      PadLength(Hours(t), 2);
    } else {
      ValueOfDecimal(Hours(t));
      ValueBound(Decimal(Hours(t)));
      assert |Decimal(Hours(t))| > 2;
    }
  }

  /** A formatted time holds only digits, `:` and `.`. */
  lemma FormatTimestampChars(t: nat)
    ensures forall c <- FormatTimestamp(t) :: IsDigit(c) || c == ':' || c == '.'
  {
    var hh, mm, ss, fff := Pad(Hours(t), 2), Pad(Minutes(t), 2), Pad(Seconds(t), 2), Pad(Millis(t), 3);
    PadDigits(Hours(t), 2);
    PadDigits(Minutes(t), 2);
    PadDigits(Seconds(t), 2);
    PadDigits(Millis(t), 3);
    var tail := ":" + mm + ":" + ss + "." + fff;
    forall c <- tail ensures IsDigit(c) || c == ':' || c == '.' {
      assert c in ":" || c in mm || c in ss || c in "." || c in fff;
    }
    assert FormatTimestamp(t) == hh + tail;
  }

  /** A numeral of k digits denotes less than 10^k. */
  lemma {:induction false} ValueBound(s: string)
    requires AllDigits(s)
    ensures Value(s) < Pow10(|s|)
    decreases |s|
  {
    if s != [] {
      ValueBound(s[..|s| - 1]);
    }
  }

  /** 3725.125 seconds is one hour, two minutes and 5.125 seconds. */
  lemma FormatTimestampExample()
    ensures FormatTimestamp(3725125) == "01:02:05.125"
  {
    var t := 3725125;
    assert FormatTimestamp(t) == "01" + (":" + "02" + ":" + "05" + "." + "125") by {
      assert Pad(Hours(t), 2) == "01" by {
        assert Hours(t) == 1;
      }
      assert Pad(Minutes(t), 2) == "02" by {
        assert Minutes(t) == 2;
      }
      assert Pad(Seconds(t), 2) == "05" by {
        assert Seconds(t) == 5;
      }
      assert Pad(Millis(t), 3) == "125" by {
        assert Millis(t) == 125;
        assert Decimal(12) == "12";
        assert Decimal(125) == "125";
      }
    }
  }

  /** Five seconds is written with zero hours and minutes. */
  lemma FormatTimestampWholeSeconds()
    ensures FormatTimestamp(5000) == "00:00:05.000"
  {
    var t := 5000;
    assert FormatTimestamp(t) == "00" + (":" + "00" + ":" + "05" + "." + "000") by {
      assert Pad(Hours(t), 2) == "00" by {
        assert Hours(t) == 0;
      }
      assert Pad(Minutes(t), 2) == "00" by {
        assert Minutes(t) == 0;
      }
      assert Pad(Seconds(t), 2) == "05" by {
        assert Seconds(t) == 5;
      }
      assert Pad(Millis(t), 3) == "000" by {
        assert Millis(t) == 0;
      }
    }
  }
}
