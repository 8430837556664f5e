/** The texts that are stamps, and the dates they stand for: exactly what relocating accepts of a
    recorded name, told without the functions that read it. */
module RolloutStamps {
  import opened Decimals
  import opened Wrappers
  import opened RolloutNames

  // ---- ids and dates ----

  /** A letter of the Latin alphabet, a digit, a dash or an underscore, by their code points. */
  predicate SafeCode(code: int) {
    97 <= code <= 122 || 65 <= code <= 90 || 48 <= code <= 57 || code == 45 || code == 95
  }

  /** A thread id has 1 to 128 characters, all of them safe. */
  lemma ThreadIDs(id: string)
    ensures ValidThread(id) <==> id != "" && !(|id| > 128) && forall ch | ch in id :: SafeCode(ch as int)
  {
    if forall ch | ch in id :: SafeCode(ch as int) {
      forall k | 0 <= k < |id| ensures ThreadChar(id[k]) {
        assert id[k] in id;
      }
    }
  }

  /** Every fourth year is a leap year, but of the full centuries only every fourth. */
  predicate HasLeapDay(year: int) {
    year % 400 == 0 || (year % 100 != 0 && year % 4 == 0)
  }

  lemma LeapYears(year: int)
    ensures Leap(year) <==> HasLeapDay(year)
  {
  }

  lemma SomeLeapYears()
    ensures Leap(2024) && Leap(2000) && !Leap(1900) && !Leap(2023)
  {
  }

  /** The lengths of the months. */
  function MonthLength(month: nat, year: int): nat
    requires 1 <= month <= 12
  {
    [31, if HasLeapDay(year) then 29 else 28, 31, 30, 31, 30, 31, 31, 30, 31, 30, 31][month - 1]
  }

  lemma MonthLengths(month: nat, year: int)
    requires 1 <= month <= 12
    ensures DaysIn(month, year) == MonthLength(month, year)
  {
    LeapYears(year);
  }

  /** The dates and times of day there are. */
  lemma DatesThatExist(t: Stamp)
    ensures Exists(t) <==>
              && t.month != 0 && !(t.month > 12) && t.day != 0 && !(t.day > MonthLength(t.month, t.year))
              && t.hour <= 23 && t.minute <= 59 && t.second <= 59
  {
    if 1 <= t.month <= 12 {
      MonthLengths(t.month, t.year);
    }
  }

  // ---- how a path is written ----

  lemma SecondOfJanuary()
    ensures var t := Stamp(2024, 1, 2, 3, 4, 5);
            Exists(t) && DayText(t) == "2024/01/02" && DateText(t) == "2024-01-02" && ClockText(t) == "03-04-05"
  {
    assert Pad2(20) == "20" && Pad2(24) == "24" && Pad2(1) == "01" && Pad2(2) == "02";
    assert Pad2(3) == "03" && Pad2(4) == "04" && Pad2(5) == "05";
    assert Year(2024) == "2024";
  }

  /** The path of the second of January 2024, a little after three. */
  lemma PathIsWritten(home: string, id: string)
    ensures var t := Stamp(2024, 1, 2, 3, 4, 5);
            Exists(t)
            && RolloutPath(home, id, t) ==
                 home + "/" + "sessions" + "/" + "2024/01/02" + "/" + ("rollout-" + ("2024-01-02" + "T" + "03-04-05") + "-" + id + ".jsonl")
  {
    SecondOfJanuary();
  }

  lemma EarlyYearIsSigned()
    ensures Year(-44) == "-0044"
  {
    assert Pad2(0) == "00" && Pad2(44) == "44";
  }

  // ---- which texts are read as a stamp ----

  /** An hour, with two digits or, before ten, with one. */
  predicate HourText(text: string, hour: nat) {
    hour < 24 && (text == Pad2(hour) || (hour < 10 && text == [Digit(hour)]))
  }

  /** Nothing, or a point or comma and then digits. */
  predicate FractionText(text: string) {
    text == "" || (|text| > 1 && text[0] in ".," && forall k | 1 <= k < |text| :: text[k] in "0123456789")
  }

  lemma DigitCharacters(ch: char)
    ensures IsDigit(ch) <==> ch in "0123456789"
  {
    if IsDigit(ch) {
      assert "0123456789"[ch as int - '0' as int] == ch;
    }
  }

  lemma Fractions(text: string)
    ensures Fraction(text) <==> FractionText(text)
  {
    forall ch {
      DigitCharacters(ch);
    }
    if text != "" {
      assert text[0] in ".," <==> text[0] == '.' || text[0] == ',' by {
        assert ".,"[0] == '.' && ".,"[1] == ',';
      }
    }
  }

  function Written(t: Stamp, hour: string, fraction: string): string
    requires Exists(t)
  {
    DateText(t) + ("T" + (hour + ("-" + (Pad2(t.minute) + ("-" + (Pad2(t.second) + fraction))))))
  }

  /** The text is the stamp's, with some way to write the hour and some fraction. */
  ghost predicate Writes(s: string, t: Stamp)
    requires Exists(t)
  {
    exists hour, fraction :: HourText(hour, t.hour) && FractionText(fraction) && s == Written(t, hour, fraction)
  }

  lemma WrittenLayout(t: Stamp, hour: string, fraction: string)
    requires Exists(t) && 0 <= t.year <= 9999 && HourText(hour, t.hour)
    ensures var s, h := Written(t, hour, fraction), |hour|;
            && 1 <= h <= 2 && |s| == 17 + h + |fraction|
            && s[..10] == DateText(t) && s[10] == 'T' && s[11..11 + h] == hour && s[11 + h] == '-'
            && s[12 + h..14 + h] == Pad2(t.minute) && s[14 + h] == '-'
            && s[15 + h..17 + h] == Pad2(t.second) && s[17 + h..] == fraction
  {
    DateLayout(t);
  }

  lemma WrittenDate(s: string, t: Stamp)
    requires Exists(t) && 0 <= t.year <= 9999 && |s| >= 10 && s[..10] == DateText(t)
    ensures Digits(s, 0, 4) && s[4] == '-' && Digits(s, 5, 7) && s[7] == '-' && Digits(s, 8, 10)
    ensures 100 * Number2(s, 0) + Number2(s, 2) == t.year && Number2(s, 5) == t.month && Number2(s, 8) == t.day
  {
    DateLayout(t);
    assert s[0..2] == s[..10][0..2] && s[2..4] == s[..10][2..4] && s[5..7] == s[..10][5..7] && s[8..10] == s[..10][8..10];
    assert s[4] == s[..10][4] && s[7] == s[..10][7];
    FieldReads(s, 0, t.year / 100);
    FieldReads(s, 2, t.year % 100);
    FieldReads(s, 5, t.month);
    FieldReads(s, 8, t.day);
  }

  lemma WrittenParses(t: Stamp, hour: string, fraction: string)
    requires Exists(t) && 0 <= t.year <= 9999 && HourText(hour, t.hour) && FractionText(fraction)
    ensures ParseStamp(Written(t, hour, fraction)) == Some(t)
  {
    var s, h := Written(t, hour, fraction), |hour|;
    WrittenLayout(t, hour, fraction);
    WrittenDate(s, t);
    Fractions(fraction);
    FieldReads(s, 12 + h, t.minute);
    FieldReads(s, 15 + h, t.second);
    if h == 2 {
      FieldReads(s, 11, t.hour);
    } else {
      assert s[11] == s[11..12][0] == Digit(t.hour);
      assert s[12] == '-';
    }
    assert HourDigits(s) == h;
  }

  lemma DigitOfValue(ch: char)
    requires IsDigit(ch)
    ensures Digit(Value(ch)) == ch
  {
  }

  lemma PadOfNumber(s: string, k: nat)
    requires Digits(s, k, k + 2)
    ensures Number2(s, k) < 100 && s[k..k + 2] == Pad2(Number2(s, k))
  {
    DigitOfValue(s[k]);
    DigitOfValue(s[k + 1]);
  }

  lemma TenCharacters(a: string, b: string)
    requires |a| == |b| == 10 && a[0..2] == b[0..2] && a[2..4] == b[2..4] && a[4] == b[4]
    requires a[5..7] == b[5..7] && a[7] == b[7] && a[8..10] == b[8..10]
    ensures a == b
  {
    assert a[0] == a[0..2][0] && a[1] == a[0..2][1] && a[2] == a[2..4][0] && a[3] == a[2..4][1];
    assert a[5] == a[5..7][0] && a[6] == a[5..7][1] && a[8] == a[8..10][0] && a[9] == a[8..10][1];
    assert b[0] == b[0..2][0] && b[1] == b[0..2][1] && b[2] == b[2..4][0] && b[3] == b[2..4][1];
    assert b[5] == b[5..7][0] && b[6] == b[5..7][1] && b[8] == b[8..10][0] && b[9] == b[8..10][1];
  }

  lemma DateIsWritten(s: string, t: Stamp)
    requires Shaped(s) && Exists(t) && t == Fields(s)
    ensures 0 <= t.year <= 9999 && s[..10] == DateText(t)
  {
    PadOfNumber(s, 0);
    PadOfNumber(s, 2);
    PadOfNumber(s, 5);
    PadOfNumber(s, 8);
    DateLayout(t);
    TenCharacters(s[..10], DateText(t));
  }

  lemma ParsedIsWritten(s: string, t: Stamp)
    requires ParseStamp(s) == Some(t)
    ensures 0 <= t.year <= 9999 && Writes(s, t)
  {
    var h := HourDigits(s);
    var hour, fraction := s[11..11 + h], s[17 + h..];
    DateIsWritten(s, t);
    PadOfNumber(s, 12 + h);
    PadOfNumber(s, 15 + h);
    Fractions(fraction);
    if h == 2 {
      PadOfNumber(s, 11);
    } else {
      DigitOfValue(s[11]);
      assert hour == [s[11]];
    }
    assert HourText(hour, t.hour);
    assert s == s[..10] + ([s[10]] + (hour + ([s[11 + h]] + (s[12 + h..14 + h] + ([s[14 + h]] + (s[15 + h..17 + h] + fraction))))));
    assert s == Written(t, hour, fraction);
  }

  /** A text is read as a stamp exactly when it is the stamp of an existing date and time in a
      four-digit year, with an hour of one or two digits and perhaps a fraction of a second. */
  lemma ParsesExactly(s: string, t: Stamp)
    requires Exists(t)
    ensures ParseStamp(s) == Some(t) <==> 0 <= t.year <= 9999 && Writes(s, t)
  {
    if ParseStamp(s) == Some(t) {
      ParsedIsWritten(s, t);
    } else if 0 <= t.year <= 9999 && Writes(s, t) {
      var hour, fraction :| HourText(hour, t.hour) && FractionText(fraction) && s == Written(t, hour, fraction);
      WrittenParses(t, hour, fraction);
    }
  }

  // ---- which recorded names are taken ----

  lemma StampIsFound(stamp: string, id: string)
    ensures StampOf("rollout-" + (stamp + ("-" + id + ".jsonl")), id) == Some(stamp)
  {
    var suffix := "-" + id + ".jsonl";
    var rest := stamp + suffix;
    assert ("rollout-" + rest)[|PREFIX|..] == rest;
    assert rest[|rest| - |suffix|..] == suffix && rest[..|rest| - |suffix|] == stamp;
  }

  /** A recorded path is relocated when its last element is "rollout-", a stamp, "-", the thread's
      id and ".jsonl"; it keeps that name under the day of its stamp. */
  lemma RelocatesExactly(home: string, recorded: string, id: string, stamp: string, t: Stamp)
    requires ParseStamp(stamp) == Some(t) && Exists(t)
    requires Base(recorded) == "rollout-" + (stamp + ("-" + id + ".jsonl"))
    ensures RelocateRollout(home, recorded, id) ==
              Some(home + "/" + "sessions" + "/" + DayText(t) + "/" + Base(recorded))
  {
    StampIsFound(stamp, id);
  }

  /** And only then. */
  lemma RelocatedHasForm(home: string, recorded: string, id: string) returns (stamp: string)
    requires RelocateRollout(home, recorded, id).Some?
    ensures Base(recorded) == "rollout-" + (stamp + ("-" + id + ".jsonl")) && ParseStamp(stamp).Some?
  {
    var name := Base(recorded);
    var suffix := "-" + id + SUFFIX;
    var rest := name[|PREFIX|..];
    stamp := rest[..|rest| - |suffix|];
    assert name == PREFIX + rest && rest == stamp + suffix;
  }

  lemma {:induction false} AfterSlashAlone(path: string)
    requires forall k | 0 <= k < |path| :: path[k] != '/'
    ensures AfterSlash(path) == path
  {
    if path == "" {
    } else {
      AfterSlashAlone(path[..|path| - 1]);
    }
  }

  /** The last element of a path: slashes at its end do not count. */
  lemma BaseOfPath(path: string)
    ensures Base("") == "." && Base("/") == "/"
    ensures path != "" ==> Base(path + "/") == Base(path)
    ensures (forall k | 0 <= k < |path| :: path[k] != '/') && path != "" ==> Base(path) == path
  {
    if path != "" {
      assert (path + "/")[..|path|] == path && (path + "/")[|path|] == '/';
      if forall k | 0 <= k < |path| :: path[k] != '/' {
        AfterSlashAlone(path);
      }
    }
  }
}
