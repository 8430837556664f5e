/** Names of codex rollouts (internal/codex/rollout.go:111-162): `rollout-<stamp>-<thread>.jsonl`
    in the day's directory, where the stamp is local wall-clock time. The stamp is read as Go's
    time.Parse reads it: an hour may have one digit, and a fraction may follow the seconds. */
module RolloutNames {
  import opened Decimals
  import opened Wrappers

  const PREFIX := "rollout-"
  const SUFFIX := ".jsonl"
  const SESSIONS := "sessions"

  datatype Stamp = Stamp(year: int, month: nat, day: nat, hour: nat, minute: nat, second: nat)

  // ---- thread ids ----

  predicate ThreadChar(ch: char) {
    'a' <= ch <= 'z' || 'A' <= ch <= 'Z' || '0' <= ch <= '9' || ch == '-' || ch == '_'
  }

  predicate ValidThread(id: string) {
    0 < |id| <= 128 && forall k | 0 <= k < |id| :: ThreadChar(id[k])
  }

  method ValidThreadID(id: string) returns (ok: bool)
    ensures ok <==> ValidThread(id)
  {
    if id == "" || |id| > 128 {
      return false;
    }
    var k := 0;
    while k < |id|
      invariant 0 <= k <= |id|
      invariant forall j | 0 <= j < k :: ThreadChar(id[j])
    {
      if !ThreadChar(id[k]) {
        return false;
      }
      k := k + 1;
    }
    return true;
  }

  // ---- printing ----

  function Pad2(n: nat): string
    requires n < 100
  {
    [Digit(n / 10), Digit(n % 10)]
  }

  function YearDigits(y: nat): string {
    if y < 10000 then Pad2(y / 100) + Pad2(y % 100) else Decimal(y)
  }

  /** A year has at least four digits, and a sign when it is negative. */
  function Year(y: int): string {
    if y < 0 then "-" + YearDigits(-y) else YearDigits(y)
  }

  predicate Leap(y: int) {
    y % 4 == 0 && (y % 100 != 0 || y % 400 == 0)
  }

  function DaysIn(month: nat, year: int): nat {
    if month == 2 then (if Leap(year) then 29 else 28)
    else if month in {4, 6, 9, 11} then 30
    else 31
  }

  /** A date and time of day that exist, in any year. */
  predicate Exists(t: Stamp) {
    1 <= t.month <= 12 && 1 <= t.day <= DaysIn(t.month, t.year) && t.hour < 24 && t.minute < 60 && t.second < 60
  }

  function DateText(t: Stamp): string
    requires Exists(t)
  {
    Year(t.year) + "-" + Pad2(t.month) + "-" + Pad2(t.day)
  }

  function ClockText(t: Stamp): string
    requires Exists(t)
  {
    Pad2(t.hour) + "-" + Pad2(t.minute) + "-" + Pad2(t.second)
  }

  function StampText(t: Stamp): string
    requires Exists(t)
  {
    DateText(t) + "T" + ClockText(t)
  }

  function DayText(t: Stamp): string
    requires Exists(t)
  {
    Year(t.year) + "/" + Pad2(t.month) + "/" + Pad2(t.day)
  }

  function Name(id: string, t: Stamp): string
    requires Exists(t)
  {
    PREFIX + StampText(t) + "-" + id + SUFFIX
  }

  /** `home` is a clean path, so joining puts slashes between. */
  function Join(home: string, day: string, name: string): string {
    home + "/" + SESSIONS + "/" + day + "/" + name
  }

  function RolloutPath(home: string, id: string, t: Stamp): string
    requires Exists(t)
  {
    Join(home, DayText(t), Name(id, t))
  }

  // ---- reading ----

  function Value(ch: char): nat
    requires IsDigit(ch)
  {
    (ch - '0') as nat
  }

  predicate Digits(s: string, from: nat, to: nat) {
    from <= to <= |s| && forall k | from <= k < to :: IsDigit(s[k])
  }

  function Number2(s: string, k: nat): nat
    requires Digits(s, k, k + 2)
  {
    10 * Value(s[k]) + Value(s[k + 1])
  }

  /** How many digits the hour at position 11 has. */
  function HourDigits(s: string): nat {
    if |s| > 12 && IsDigit(s[12]) then 2 else 1
  }

  /** What may follow the seconds: nothing, or a point or comma and digits. */
  predicate Fraction(s: string) {
    s == "" || (|s| >= 2 && (s[0] == '.' || s[0] == ',') && Digits(s, 1, |s|))
  }

  /** The stamp's shape: where its digits and separators are. */
  predicate Shaped(s: string) {
    var h := HourDigits(s);
    && |s| >= 17 + h
    && Digits(s, 0, 4) && s[4] == '-' && Digits(s, 5, 7) && s[7] == '-' && Digits(s, 8, 10) && s[10] == 'T'
    && Digits(s, 11, 11 + h) && s[11 + h] == '-'
    && Digits(s, 12 + h, 14 + h) && s[14 + h] == '-'
    && Digits(s, 15 + h, 17 + h)
    && Fraction(s[17 + h..])
  }

  function Fields(s: string): Stamp
    requires Shaped(s)
  {
    var h := HourDigits(s);
    Stamp(100 * Number2(s, 0) + Number2(s, 2), Number2(s, 5), Number2(s, 8),
          if h == 2 then Number2(s, 11) else Value(s[11]),
          Number2(s, 12 + h), Number2(s, 15 + h))
  }

  function ParseStamp(s: string): Option<Stamp> {
    if Shaped(s) && Exists(Fields(s)) then Some(Fields(s)) else None
  }

  function AfterSlash(path: string): string {
    if path == "" || path[|path| - 1] == '/' then ""
    else AfterSlash(path[..|path| - 1]) + [path[|path| - 1]]
  }

  /** filepath.Base: the text after the last slash, trailing slashes aside. */
  function Base(path: string): string {
    if path == "" then "."
    else if path == "/" then "/"
    else if path[|path| - 1] == '/' then Base(path[..|path| - 1])
    else AfterSlash(path)
  }

  predicate HasSuffix(s: string, suffix: string) {
    |suffix| <= |s| && s[|s| - |suffix|..] == suffix
  }

  /** What stands between the prefix and the thread's suffix of a file name. */
  function StampOf(name: string, id: string): Option<string> {
    var suffix := "-" + id + SUFFIX;
    if !(PREFIX <= name) then None
    else
      var rest := name[|PREFIX|..];
      if !HasSuffix(rest, suffix) then None else Some(rest[..|rest| - |suffix|])
  }

  function RelocateRollout(home: string, recorded: string, id: string): Option<string> {
    var name := Base(recorded);
    var text := StampOf(name, id);
    if text.None? then None
    else
      var start := ParseStamp(text.value);
      if start.None? then None else Some(Join(home, DayText(start.value), name))
  }

  // ---- reading what was printed ----

  function Power10(k: nat): nat {
    if k == 0 then 1 else 10 * Power10(k - 1)
  }

  lemma TenthOf(n: nat, p: nat)
    requires n >= 10 * p
    ensures n / 10 >= p
  {
  }

  /** A number of at least 1 followed by k - 1 zeros has at least k digits. */
  lemma {:induction false} DecimalGrows(n: nat, k: nat)
    requires k > 0 && n >= Power10(k - 1)
    ensures |Decimal(n)| >= k
  {
    if k > 1 {
      assert Power10(k - 1) == 10 * Power10(k - 2);
      assert n >= 10 * Power10(k - 2);
      TenthOf(n, Power10(k - 2));
      DecimalGrows(n / 10, k - 1);
    }
  }

  lemma LongDecimal(n: nat)
    requires n >= 10000
    ensures |Decimal(n)| >= 5
  {
    assert Power10(0) == 1 && Power10(1) == 10 && Power10(2) == 100 && Power10(3) == 1000 && Power10(4) == 10000;
    DecimalGrows(n, 5);
  }

  lemma PadReads(n: nat)
    requires n < 100
    ensures Digits(Pad2(n), 0, 2) && Number2(Pad2(n), 0) == n
  {
  }

  /** Two dashes between two-digit fields. */
  lemma DashedLayout(a: nat, b: nat, c: nat)
    requires a < 100 && b < 100 && c < 100
    ensures var s := Pad2(a) + "-" + Pad2(b) + "-" + Pad2(c);
            && |s| == 8
            && s[0..2] == Pad2(a) && s[2] == '-' && s[3..5] == Pad2(b) && s[5] == '-' && s[6..8] == Pad2(c)
  {
  }

  lemma SliceOfSlice(s: string, from: nat, i: nat, j: nat)
    requires i <= j && from + j <= |s|
    ensures s[from..][i..j] == s[from + i..from + j]
  {
  }

  lemma DateLayout(t: Stamp)
    requires Exists(t) && 0 <= t.year <= 9999
    ensures var s := DateText(t);
            && |s| == 10
            && s[0..2] == Pad2(t.year / 100) && s[2..4] == Pad2(t.year % 100) && s[4] == '-'
            && s[5..7] == Pad2(t.month) && s[7] == '-' && s[8..10] == Pad2(t.day)
  {
    var rest := Pad2(t.year % 100) + "-" + Pad2(t.month) + "-" + Pad2(t.day);
    DashedLayout(t.year % 100, t.month, t.day);
    assert DateText(t) == Pad2(t.year / 100) + rest;
    assert DateText(t)[2..] == rest;
    SliceOfSlice(DateText(t), 2, 0, 2);
    SliceOfSlice(DateText(t), 2, 3, 5);
    SliceOfSlice(DateText(t), 2, 6, 8);
  }

  /** Laid out: where each field of a four-digit year's stamp stands. */
  lemma StampLayout(t: Stamp)
    requires Exists(t) && 0 <= t.year <= 9999
    ensures var s := StampText(t);
            && |s| == 19
            && s[..10] == DateText(t) && s[10] == 'T' && s[11..] == ClockText(t)
            && s[0..2] == Pad2(t.year / 100) && s[2..4] == Pad2(t.year % 100) && s[4] == '-'
            && s[5..7] == Pad2(t.month) && s[7] == '-' && s[8..10] == Pad2(t.day)
            && s[11..13] == Pad2(t.hour) && s[13] == '-' && s[14..16] == Pad2(t.minute) && s[16] == '-'
            && s[17..19] == Pad2(t.second)
  {
    var s := StampText(t);
    DateLayout(t);
    DashedLayout(t.hour, t.minute, t.second);
    assert s[..10] == DateText(t) && s[11..] == ClockText(t);
    assert s[0..2] == s[..10][0..2] && s[2..4] == s[..10][2..4] && s[5..7] == s[..10][5..7] && s[8..10] == s[..10][8..10];
    assert s[4] == s[..10][4] && s[7] == s[..10][7];
    SliceOfSlice(s, 11, 0, 2);
    SliceOfSlice(s, 11, 3, 5);
    SliceOfSlice(s, 11, 6, 8);
    assert s[13] == s[11..][2] && s[16] == s[11..][5];
  }

  lemma FieldReads(s: string, k: nat, n: nat)
    requires n < 100 && k + 2 <= |s| && s[k..k + 2] == Pad2(n)
    ensures Digits(s, k, k + 2) && Number2(s, k) == n
  {
    assert s[k] == s[k..k + 2][0] && s[k + 1] == s[k..k + 2][1];
    PadReads(n);
  }

  lemma PrintedParses(t: Stamp)
    requires Exists(t) && 0 <= t.year <= 9999
    ensures ParseStamp(StampText(t)) == Some(t)
  {
    var s := StampText(t);
    StampLayout(t);
    FieldReads(s, 0, t.year / 100);
    FieldReads(s, 2, t.year % 100);
    FieldReads(s, 5, t.month);
    FieldReads(s, 8, t.day);
    FieldReads(s, 11, t.hour);
    FieldReads(s, 14, t.minute);
    FieldReads(s, 17, t.second);
    assert s[19..] == "";
  }

  lemma OtherYearsDoNotParse(t: Stamp)
    requires Exists(t) && !(0 <= t.year <= 9999)
    ensures ParseStamp(StampText(t)).None?
  {
    var s := StampText(t);
    if t.year < 0 {
      assert DateText(t)[0] == Year(t.year)[0] == '-';
      assert s[0] == '-';
    } else {
      LongDecimal(t.year);
      assert s[4] == DateText(t)[4] == Year(t.year)[4];
    }
  }

  lemma {:induction false} AfterSlashOf(dir: string, name: string)
    requires name != "" && forall k | 0 <= k < |name| :: name[k] != '/'
    ensures AfterSlash(dir + "/" + name) == name
  {
    var path := dir + "/" + name;
    var n := |name| - 1;
    assert path[..|path| - 1] == dir + "/" + name[..n];
    if n == 0 {
      assert path[..|path| - 1] == dir + "/";
      assert name == [name[0]];
    } else {
      AfterSlashOf(dir, name[..n]);
      assert name == name[..n] + [name[n]];
    }
  }

  lemma BaseOfJoin(home: string, day: string, name: string)
    requires name != "" && forall k | 0 <= k < |name| :: name[k] != '/'
    ensures Base(Join(home, day, name)) == name
  {
    var dir := home + "/" + SESSIONS + "/" + day;
    assert Join(home, day, name) == dir + "/" + name;
    assert (dir + "/" + name)[|dir + "/" + name| - 1] == name[|name| - 1];
    AfterSlashOf(dir, name);
  }

  lemma StampOfName(id: string, t: Stamp)
    requires Exists(t)
    ensures StampOf(Name(id, t), id) == Some(StampText(t))
  {
    var name, suffix := Name(id, t), "-" + id + SUFFIX;
    assert name == PREFIX + (StampText(t) + suffix);
    var rest := name[|PREFIX|..];
    assert rest == StampText(t) + suffix;
    assert rest[|rest| - |suffix|..] == suffix && rest[..|rest| - |suffix|] == StampText(t);
  }

  lemma YearHasNoSlash(y: int)
    ensures forall k | 0 <= k < |Year(y)| :: Year(y)[k] != '/'
  {
    var n := if y < 0 then -y else y;
    assert forall k | 0 <= k < |YearDigits(n)| :: YearDigits(n)[k] != '/';
  }

  lemma NoSlash(id: string, t: Stamp)
    requires Exists(t) && ValidThread(id)
    ensures forall k | 0 <= k < |Name(id, t)| :: Name(id, t)[k] != '/'
  {
    assert forall k | 0 <= k < |id| :: ThreadChar(id[k]);
    YearHasNoSlash(t.year);
    assert forall k | 0 <= k < |DateText(t)| :: DateText(t)[k] != '/';
    assert forall k | 0 <= k < |ClockText(t)| :: ClockText(t)[k] != '/';
    var s := StampText(t);
    assert forall k | 0 <= k < |s| :: s[k] != '/';
  }

  // ---- what names promise ----

  /** Relocating a printed path gives the path printed under the new home, exactly for the years
      a stamp can hold. */
  lemma RelocatedIsPrinted(home: string, home': string, id: string, t: Stamp)
    requires ValidThread(id) && Exists(t)
    ensures var moved := RelocateRollout(home', RolloutPath(home, id, t), id);
            && (0 <= t.year <= 9999 ==> moved == Some(RolloutPath(home', id, t)))
            && (moved.Some? ==> 0 <= t.year <= 9999)
  {
    NoSlash(id, t);
    BaseOfJoin(home, DayText(t), Name(id, t));
    StampOfName(id, t);
    if 0 <= t.year <= 9999 {
      PrintedParses(t);
    } else {
      OtherYearsDoNotParse(t);
    }
  }

  /** No stamp goes on with a dash. */
  lemma StampEnds(s: string, more: string)
    requires Shaped(s)
    ensures !Shaped(s + "-" + more)
  {
    var l := s + "-" + more;
    var h := HourDigits(s);
    assert l[12] == s[12];
    assert HourDigits(l) == h;
    var tail := s[17 + h..];
    assert l[17 + h..] == tail + "-" + more;
    assert l[17 + h..][|tail|] == '-';
  }

  lemma SameLengthSame(name: string, a: string, b: string)
    requires |a| == |b| && StampOf(name, a).Some? && StampOf(name, b).Some?
    ensures a == b
  {
    var sa, sb := "-" + a + SUFFIX, "-" + b + SUFFIX;
    assert sa == sb;
    assert sa[1..1 + |a|] == a && sb[1..1 + |b|] == b;
  }

  lemma ShorterThreadRefused(name: string, a: string, b: string)
    requires |a| < |b| && StampOf(name, a).Some? && StampOf(name, b).Some?
    requires Shaped(StampOf(name, b).value)
    ensures !Shaped(StampOf(name, a).value)
  {
    var rest := name[|PREFIX|..];
    var sa, sb := "-" + a + SUFFIX, "-" + b + SUFFIX;
    var ra, rb := StampOf(name, a).value, StampOf(name, b).value;
    assert rest == ra + sa && rest == rb + sb;
    var more := ra[|rb| + 1..];
    assert ra[|rb|] == rest[|rb|] == sb[0] == '-';
    assert ra[..|rb|] == rb;
    assert ra == rb + "-" + more;
    StampEnds(rb, more);
  }

  /** A file name is the rollout of one thread at most. */
  lemma NameBelongsToOneThread(home: string, recorded: string, a: string, b: string)
    requires RelocateRollout(home, recorded, a).Some? && RelocateRollout(home, recorded, b).Some?
    ensures a == b
  {
    if |a| < |b| {
      ShorterThreadRefused(Base(recorded), a, b);
    } else if |b| < |a| {
      ShorterThreadRefused(Base(recorded), b, a);
    } else {
      SameLengthSame(Base(recorded), a, b);
    }
  }

  /** A printed path is refused under any other thread id. */
  lemma OtherThreadRefused(home: string, home': string, id: string, other: string, t: Stamp)
    requires ValidThread(id) && Exists(t) && 0 <= t.year <= 9999 && other != id
    ensures RelocateRollout(home', RolloutPath(home, id, t), other).None?
  {
    RelocatedIsPrinted(home, home', id, t);
    if RelocateRollout(home', RolloutPath(home, id, t), other).Some? {
      NameBelongsToOneThread(home', RolloutPath(home, id, t), id, other);
    }
  }

  /** A path printed in the year 10000 is not found again. */
  lemma LateYearIsLost(home: string, id: string)
    requires ValidThread(id)
    ensures var t := Stamp(10000, 1, 1, 0, 0, 0);
            Exists(t) && RelocateRollout(home, RolloutPath(home, id, t), id).None?
  {
    RelocatedIsPrinted(home, home, id, Stamp(10000, 1, 1, 0, 0, 0));
  }
}
