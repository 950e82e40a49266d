/** What backups are called: the moment they were made, and an id that keeps two of one second
    apart. Names are read back to find the backups among other files. */
module BackupNames {
  import opened Json
  import opened Text

  const PREFIX: string := "discoclip-"
  const SUFFIX: string := ".db"

  /** A moment to the second, as a name spells it. */
  datatype Moment = Moment(year: nat, month: nat, day: nat, hour: nat, minute: nat, second: nat)

  predicate Leap(year: nat) {
    year % 4 == 0 && (year % 100 != 0 || year % 400 == 0)
  }

  function DaysIn(year: nat, month: nat): nat {
    if month == 2 then if Leap(year) then 29 else 28
    else if month in {4, 6, 9, 11} then 30
    else 31
  }

  predicate OnCalendar(m: Moment) {
    && m.year <= 9999 && 1 <= m.month <= 12 && 1 <= m.day <= DaysIn(m.year, m.month)
    && m.hour < 24 && m.minute < 60 && m.second < 60
  }

  function DaysUpTo(year: nat, month: nat): nat {
    if month == 0 then 0 else DaysUpTo(year, month - 1) + DaysIn(year, month)
  }

  /** A year has 365 days from its first month to its twelfth, one more in each fourth year, but not in
      the hundredth unless it is the four hundredth; it begins and ends on the calendar. */
  lemma YearsAreWhole(year: nat)
    ensures DaysUpTo(year, 12) == 365 + (if year % 400 == 0 then 1 else if year % 100 == 0 then 0 else if year % 4 == 0 then 1 else 0)
    ensures DaysUpTo(year, 7) == DaysUpTo(year, 2) + 153 && DaysUpTo(year, 1) == 31
    ensures OnCalendar(Moment(year, 1, 1, 0, 0, 0)) <==> year <= 9999
    ensures OnCalendar(Moment(year, 12, 31, 23, 59, 59)) <==> year <= 9999
    ensures forall day, hour, minute, second ::
              !OnCalendar(Moment(year, 0, day, hour, minute, second)) && !OnCalendar(Moment(year, 13, day, hour, minute, second))
  {
    assert DaysUpTo(year, 1) == 31;
    var spring := DaysUpTo(year, 2);
    assert DaysUpTo(year, 3) == spring + 31;
    assert DaysUpTo(year, 4) == spring + 61;
    assert DaysUpTo(year, 5) == spring + 92;
    assert DaysUpTo(year, 6) == spring + 122;
    assert DaysUpTo(year, 7) == spring + 153;
    assert DaysUpTo(year, 8) == spring + 184;
    assert DaysUpTo(year, 9) == spring + 214;
    assert DaysUpTo(year, 10) == spring + 245;
    assert DaysUpTo(year, 11) == spring + 275;
  }

  function Digit(n: nat): char
    requires n < 10
  {
    '0' + n as char
  }

  /** The last `width` digits of a number, zeros in front. */
  function Padded(n: nat, width: nat): string {
    if width == 0 then "" else Padded(n / 10, width - 1) + [Digit(n % 10)]
  }

  function Joined(year: string, month: string, day: string, hour: string, minute: string, second: string): string {
    year + month + day + "T" + hour + minute + second + "Z"
  }

  function Stamp(m: Moment): string {
    Joined(Padded(m.year, 4), Padded(m.month, 2), Padded(m.day, 2),
           Padded(m.hour, 2), Padded(m.minute, 2), Padded(m.second, 2))
  }

  function NameFor(m: Moment): string {
    PREFIX + Stamp(m) + SUFFIX
  }

  function UniqueName(m: Moment, id: string): string {
    PREFIX + Stamp(m) + "-" + id + SUFFIX
  }

  /** A text up to its first hyphen, and what follows it. */
  function SplitOnce(s: string): Option<(string, string)> {
    if s == "" then None
    else if s[0] == '-' then Some(("", s[1..]))
    else
      var rest := SplitOnce(s[1..]);
      if rest.None? then None else Some(([s[0]] + rest.value.0, rest.value.1))
  }

  function DigitsOf(stamp: string, from: nat, to: nat): Option<nat>
    requires from <= to <= |stamp|
  {
    if AllDigits(stamp[from..to]) then Some(Decimal(stamp[from..to])) else None
  }

  function MomentOf(stamp: string): Option<Moment> {
    if |stamp| != 16 || stamp[15] != 'Z' || stamp[8] != 'T' then None
    else
      var year, month, day := DigitsOf(stamp, 0, 4), DigitsOf(stamp, 4, 6), DigitsOf(stamp, 6, 8);
      var hour, minute, second := DigitsOf(stamp, 9, 11), DigitsOf(stamp, 11, 13), DigitsOf(stamp, 13, 15);
      if year.None? || month.None? || day.None? || hour.None? || minute.None? || second.None? then None
      else
        var m := Moment(year.value, month.value, day.value, hour.value, minute.value, second.value);
        if OnCalendar(m) then Some(m) else None
  }

  /** Reads a file name back: a moment for the names above, nothing for any other file. */
  function TimeOf(name: string, isUuid: string -> bool): Option<Moment> {
    if |name| < |PREFIX| + |SUFFIX| || !(PREFIX <= name) || name[|name| - |SUFFIX|..] != SUFFIX then None
    else
      var raw := name[|PREFIX|..|name| - |SUFFIX|];
      match SplitOnce(raw)
      case Some((stamp, id)) => if isUuid(id) then MomentOf(stamp) else None
      case None => MomentOf(raw)
  }

  // ---- digits ----

  function Power(width: nat): nat {
    if width == 0 then 1 else 10 * Power(width - 1)
  }

  lemma {:induction false} PaddedReads(n: nat, width: nat)
    requires n < Power(width)
    ensures |Padded(n, width)| == width && AllDigits(Padded(n, width)) && Decimal(Padded(n, width)) == n
  {
    if width > 0 {
      PaddedReads(n / 10, width - 1);
      var p := Padded(n, width);
      assert p[..|p| - 1] == Padded(n / 10, width - 1);
    }
  }

  lemma {:induction false} ReadsPadded(s: string)
    requires AllDigits(s)
    ensures Decimal(s) < Power(|s|) && Padded(Decimal(s), |s|) == s
    decreases |s|
  {
    if s != "" {
      ReadsPadded(s[..|s| - 1]);
    }
  }

  lemma Powers()
    ensures Power(2) == 100 && Power(4) == 10000
  {
    assert Power(1) == 10;
    assert Power(3) == 1000;
  }

  // ---- reading a name back ----

  /** A stamp and a moment on the calendar are two ways to write the same. */
  lemma StampIsMoment(stamp: string, m: Moment)
    ensures MomentOf(stamp) == Some(m) <==> OnCalendar(m) && stamp == Stamp(m)
  {
    if OnCalendar(m) && stamp == Stamp(m) {
      StampReads(m);
    }
    if MomentOf(stamp) == Some(m) {
      StampWritten(stamp, m);
    }
  }

  lemma JoinedParts(year: string, month: string, day: string, hour: string, minute: string, second: string)
    requires |year| == 4 && |month| == 2 && |day| == 2 && |hour| == 2 && |minute| == 2 && |second| == 2
    ensures var s := Joined(year, month, day, hour, minute, second);
            && |s| == 16 && s[8] == 'T' && s[15] == 'Z'
            && s[0..4] == year && s[4..6] == month && s[6..8] == day
            && s[9..11] == hour && s[11..13] == minute && s[13..15] == second
  {
  }

  lemma PartsJoined(s: string)
    requires |s| == 16 && s[8] == 'T' && s[15] == 'Z'
    ensures s == Joined(s[0..4], s[4..6], s[6..8], s[9..11], s[11..13], s[13..15])
  {
  }

  /** `text` spells `n` in so many digits. */
  predicate Spells(text: string, n: nat, width: nat) {
    |text| == width && AllDigits(text) && Decimal(text) == n
  }

  lemma MomentSpelled(m: Moment)
    requires OnCalendar(m)
    ensures Spells(Padded(m.year, 4), m.year, 4) && Spells(Padded(m.month, 2), m.month, 2)
    ensures Spells(Padded(m.day, 2), m.day, 2) && Spells(Padded(m.hour, 2), m.hour, 2)
    ensures Spells(Padded(m.minute, 2), m.minute, 2) && Spells(Padded(m.second, 2), m.second, 2)
  {
    Powers();
    PaddedReads(m.year, 4);
    PaddedReads(m.month, 2);
    PaddedReads(m.day, 2);
    PaddedReads(m.hour, 2);
    PaddedReads(m.minute, 2);
    PaddedReads(m.second, 2);
  }

  lemma JoinedReads(m: Moment, year: string, month: string, day: string, hour: string, minute: string, second: string)
    requires OnCalendar(m)
    requires Spells(year, m.year, 4) && Spells(month, m.month, 2) && Spells(day, m.day, 2)
    requires Spells(hour, m.hour, 2) && Spells(minute, m.minute, 2) && Spells(second, m.second, 2)
    ensures MomentOf(Joined(year, month, day, hour, minute, second)) == Some(m)
    ensures '-' !in Joined(year, month, day, hour, minute, second)
  {
    JoinedParts(year, month, day, hour, minute, second);
  }

  lemma StampReads(m: Moment)
    requires OnCalendar(m)
    ensures MomentOf(Stamp(m)) == Some(m) && '-' !in Stamp(m)
  {
    MomentSpelled(m);
    JoinedReads(m, Padded(m.year, 4), Padded(m.month, 2), Padded(m.day, 2),
                Padded(m.hour, 2), Padded(m.minute, 2), Padded(m.second, 2));
  }

  lemma StampWritten(stamp: string, m: Moment)
    requires MomentOf(stamp) == Some(m)
    ensures OnCalendar(m) && stamp == Stamp(m)
  {
    PartsJoined(stamp);
    PartWritten(stamp, 0, 4);
    PartWritten(stamp, 4, 6);
    PartWritten(stamp, 6, 8);
    PartWritten(stamp, 9, 11);
    PartWritten(stamp, 11, 13);
    PartWritten(stamp, 13, 15);
  }

  lemma PartWritten(stamp: string, from: nat, to: nat)
    requires from <= to <= |stamp| && DigitsOf(stamp, from, to).Some?
    ensures Padded(DigitsOf(stamp, from, to).value, to - from) == stamp[from..to]
  {
    ReadsPadded(stamp[from..to]);
  }

  lemma {:induction false} SplitsAt(s: string, head: string, tail: string)
    ensures SplitOnce(s) == Some((head, tail)) <==> s == head + "-" + tail && '-' !in head
    ensures SplitOnce(s).None? <==> '-' !in s
    decreases |s|
  {
    if s != "" {
      assert s == [s[0]] + s[1..];
      if head == "" {
        SplitsAt(s[1..], head, tail);
      } else {
        SplitsAt(s[1..], head[1..], tail);
        assert head == [head[0]] + head[1..];
        if s == head + "-" + tail {
          assert s[1..] == head[1..] + "-" + tail;
        }
      }
    }
  }

  /** A file is taken for a backup of a moment exactly when it bears the name one made then gets,
      with or without an id. */
  lemma NamesReadBack(name: string, isUuid: string -> bool, m: Moment)
    ensures TimeOf(name, isUuid) == Some(m) <==>
            OnCalendar(m) && (name == NameFor(m) || exists id :: isUuid(id) && name == UniqueName(m, id))
  {
    if OnCalendar(m) && name == NameFor(m) {
      PlainNameReads(m, isUuid);
    }
    if OnCalendar(m) && exists id :: isUuid(id) && name == UniqueName(m, id) {
      var id :| isUuid(id) && name == UniqueName(m, id);
      UniqueNameReads(m, id, isUuid);
    }
    if TimeOf(name, isUuid) == Some(m) {
      ReadsName(name, isUuid, m);
    }
  }

  lemma PlainNameReads(m: Moment, isUuid: string -> bool)
    requires OnCalendar(m)
    ensures TimeOf(NameFor(m), isUuid) == Some(m)
  {
    var name := NameFor(m);
    assert name[|PREFIX|..|name| - |SUFFIX|] == Stamp(m);
    StampReads(m);
    SplitsAt(Stamp(m), "", "");
    StampIsMoment(Stamp(m), m);
  }

  lemma UniqueNameReads(m: Moment, id: string, isUuid: string -> bool)
    requires OnCalendar(m) && isUuid(id)
    ensures TimeOf(UniqueName(m, id), isUuid) == Some(m)
  {
    var name := UniqueName(m, id);
    assert name[|PREFIX|..|name| - |SUFFIX|] == Stamp(m) + "-" + id;
    StampReads(m);
    SplitsAt(Stamp(m) + "-" + id, Stamp(m), id);
    StampIsMoment(Stamp(m), m);
  }

  lemma Unwrapped(name: string, raw: string)
    requires |name| >= |PREFIX| + |SUFFIX| && PREFIX <= name && name[|name| - |SUFFIX|..] == SUFFIX
    requires raw == name[|PREFIX|..|name| - |SUFFIX|]
    ensures name == PREFIX + raw + SUFFIX
  {
    assert name == name[..|PREFIX|] + raw + name[|name| - |SUFFIX|..];
  }

  lemma Reassociated(a: string, b: string, c: string, d: string, e: string)
    ensures a + (b + c + d) + e == a + b + c + d + e
  {
    assert a + (b + c + d) == a + b + c + d;
  }

  lemma ReadsName(name: string, isUuid: string -> bool, m: Moment)
    requires TimeOf(name, isUuid) == Some(m)
    ensures OnCalendar(m) && (name == NameFor(m) || exists id :: isUuid(id) && name == UniqueName(m, id))
  {
    var raw := name[|PREFIX|..|name| - |SUFFIX|];
    Unwrapped(name, raw);
    if SplitOnce(raw).Some? {
      var (stamp, id) := SplitOnce(raw).value;
      SplitsAt(raw, stamp, id);
      StampIsMoment(stamp, m);
      Reassociated(PREFIX, stamp, "-", id, SUFFIX);
      assert name == UniqueName(m, id);
    } else {
      StampIsMoment(raw, m);
    }
  }
}
