/**
 * The Bybit kline interval vocabulary: the thirteen accepted interval strings, their
 * validation and normalisation, and their length in minutes.
 */
module Intervals {
  import opened Wrappers
  import opened Text

  /** The interval strings the exchange accepts. */
  const ValidIntervals: set<string> :=
    {"1", "3", "5", "15", "30", "60", "120", "240", "360", "720", "D", "M", "W"}

  /** The intervals counted in minutes, as numbers. */
  const MinuteIntervals: set<int> := {1, 3, 5, 15, 30, 60, 120, 240, 360, 720}

  /** The named intervals and their (approximate) length in minutes. */
  const NamedIntervalMinutes: map<string, int> := map["D" := 1440, "W" := 10080, "M" := 43200]

  /** `validate_interval`: a valid string is returned as is; otherwise the canonical form of its integer value, if valid. */
  function ValidateInterval(interval: string): (r: Result<string>)
    ensures r.Ok? ==> r.value in ValidIntervals
    ensures interval in ValidIntervals ==> r == Ok(interval)
    ensures r.Err? ==> r.error == "Invalid interval: " + interval
  {
    if interval in ValidIntervals then Ok(interval)
    else
      match ParseInt(interval)
      case Some(minutes) =>
        if IntToString(minutes) in ValidIntervals then Ok(IntToString(minutes))
        else Err("Invalid interval: " + interval)
      case None => Err("Invalid interval: " + interval)
  }

  /** The decimal forms of the minute intervals. */
  lemma MinuteRenders()
    ensures NatToString(1) == "1" && NatToString(3) == "3" && NatToString(5) == "5"
    ensures NatToString(15) == "15" && NatToString(30) == "30" && NatToString(60) == "60"
    ensures NatToString(120) == "120" && NatToString(240) == "240"
    ensures NatToString(360) == "360" && NatToString(720) == "720"
  {
  }

  /** The minute count written by a minute-interval string. */
  function MinuteValue(s: string): (m: int)
    requires s in ValidIntervals && s !in NamedIntervalMinutes
    ensures m in MinuteIntervals
  {
    if s == "1" then 1 else if s == "3" then 3 else if s == "5" then 5
    else if s == "15" then 15 else if s == "30" then 30 else if s == "60" then 60
    else if s == "120" then 120 else if s == "240" then 240
    else if s == "360" then 360 else 720
  }

  /** A minute-interval string is the decimal form of its minute count. */
  lemma MinuteValueRenders(s: string)
    requires s in ValidIntervals && s !in NamedIntervalMinutes
    ensures NatToString(MinuteValue(s)) == s
  {
    MinuteRenders();
  }

  /** The canonical decimal form of an integer is a valid interval exactly for the minute intervals. */
  lemma MinuteStrings(m: int)
    ensures IntToString(m) in ValidIntervals <==> m in MinuteIntervals
  {
    MinuteRenders();
    var s := IntToString(m);
    if m !in MinuteIntervals && s in ValidIntervals {
      assert s == NatToString(m);
      assert IsDigit(s[0]);
      assert s !in NamedIntervalMinutes;
      var k := MinuteValue(s);
      MinuteValueRenders(s);
      NatToStringInjective(m, k);
      assert false;
    }
  }

  /** A string outside the vocabulary is accepted exactly when it reads as one of the minute counts, and is then normalised. */
  lemma ValidateNonCanonical(interval: string)
    requires interval !in ValidIntervals
    ensures var r, n := ValidateInterval(interval), ParseInt(interval);
      (r.Ok? <==> n.Some? && n.value in MinuteIntervals)
      && (r.Ok? ==> r.value == NatToString(n.value))
  {
    if ParseInt(interval).Some? {
      MinuteStrings(ParseInt(interval).value);
    }
  }

  /** Validating twice is validating once. */
  lemma ValidateIdempotent(interval: string)
    requires ValidateInterval(interval).Ok?
    ensures ValidateInterval(ValidateInterval(interval).value) == ValidateInterval(interval)
  {
  }

  /** Every accepted string starts with a non-zero digit or a letter. */
  lemma ValidFirstChar(v: string)
    requires v in ValidIntervals
    ensures |v| > 0 && v[0] != '0' && !IsSpace(v[0])
  {
  }

  /** A minute count written with a leading zero is accepted and normalised. */
  lemma ValidatePadded(m: int)
    requires m in MinuteIntervals
    ensures ValidateInterval(['0'] + NatToString(m)) == Ok(NatToString(m))
  {
    var padded := ['0'] + NatToString(m);
    assert padded !in ValidIntervals by {
      if padded in ValidIntervals {
        ValidFirstChar(padded);
      }
    }
    assert ParseInt(padded) == Some(m) by { ParsePaddedNat(m); }
    ValidateNonCanonical(padded);
  }

  /** Surrounding white space is ignored, as `int()` ignores it, and the result is normalised. */
  lemma ValidateSpaced(m: int)
    requires m in MinuteIntervals
    ensures ValidateInterval([' '] + NatToString(m) + [' ']) == Ok(NatToString(m))
  {
    var spaced := [' '] + NatToString(m) + [' '];
    assert spaced !in ValidIntervals by {
      if spaced in ValidIntervals {
        ValidFirstChar(spaced);
      }
    }
    assert ParseInt(spaced) == Some(m) by { ParseSpacedNat(m); }
    ValidateNonCanonical(spaced);
  }

  /** A number that is not a minute interval is rejected. */
  lemma ValidateRejectsNumber()
    ensures ValidateInterval("2") == Err("Invalid interval: 2")
  {
    assert "2" !in ValidIntervals;
    assert ParseInt(NatToString(2)) == Some(2) by { ParseNatToString(2); }
    assert NatToString(2) == "2";
    assert IntToString(2) !in ValidIntervals by { MinuteStrings(2); }
  }

  /** A letter other than D, W and M is rejected. */
  lemma ValidateRejectsLetter()
    ensures ValidateInterval("H") == Err("Invalid interval: H")
  {
    assert "H" !in ValidIntervals;
    assert Strip("H") == "H" by { StripUnspaced("H"); }
    assert "H"[0] == 'H';
    ParseRejectsLeading("H");
  }

  /** `interval_to_minutes`: validate, then look up a named interval or read the minute count. */
  function IntervalToMinutes(interval: string): (r: Result<int>)
    ensures r.Err? <==> ValidateInterval(interval).Err?
    ensures r.Err? ==> r == Err(ValidateInterval(interval).error)
  {
    match ValidateInterval(interval)
    case Err(e) => Err(e)
    case Ok(validated) =>
      if validated in NamedIntervalMinutes then Ok(NamedIntervalMinutes[validated])
      else
        MinuteIntervalParses(validated);
        Ok(ParseInt(validated).value)
  }

  /** Every minute-count interval string reads back as its own number. */
  lemma MinuteIntervalParses(validated: string)
    requires validated in ValidIntervals && validated !in NamedIntervalMinutes
    ensures ParseInt(validated) == Some(MinuteValue(validated))
  {
    MinuteValueRenders(validated);
    ParseNatToString(MinuteValue(validated));
  }

  /** The default interval string converts to sixty minutes. */
  lemma SixtyMinutes()
    ensures IntervalToMinutes("60") == Ok(60)
  {
    assert "60" in ValidIntervals && "60" !in NamedIntervalMinutes;
    assert ValidateInterval("60") == Ok("60");
    assert ParseInt("60") == Some(60) by {
      MinuteRenders();
      ParseNatToString(60);
    }
  }

  /** The named intervals map to a day, a week and thirty days. */
  lemma NamedMinutes()
    ensures IntervalToMinutes("D") == Ok(1440)
    ensures IntervalToMinutes("W") == Ok(10080)
    ensures IntervalToMinutes("M") == Ok(43200)
  {
  }

  /** Every successful conversion is positive, and a minute interval converts to its own value. */
  lemma MinutesRange(interval: string)
    requires IntervalToMinutes(interval).Ok?
    ensures IntervalToMinutes(interval).value > 0
    ensures IntervalToMinutes(interval).value in MinuteIntervals + {1440, 10080, 43200}
    ensures ValidateInterval(interval).value !in NamedIntervalMinutes ==>
      ValidateInterval(interval).value == NatToString(IntervalToMinutes(interval).value)
  {
    var v := ValidateInterval(interval).value;
    if v !in NamedIntervalMinutes {
      MinuteIntervalParses(v);
      MinuteValueRenders(v);
    }
  }
}
