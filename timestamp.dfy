/** The timestamp each migration folder is prefixed with
    (cmd/root.go:210-216): the date and time to the second, formatted with
    the layout "20060102150405", followed by the millisecond padded to three
    digits. */
module Timestamp {
  import opened Text

  /** Milliseconds since the Unix epoch at which the year reaches 10000:
      from there on the four-digit year layout needs a fifth digit. */
  const Horizon: nat := 253402300800000

  function Digit(d: nat): (c: char)
    requires d < 10
    ensures IsDigit(c)
  {
    ('0' as int + d) as char
  }

  function DigitValue(c: char): nat
    requires IsDigit(c)
  {
    c as int - '0' as int
  }

  /** The number a string of decimal digits spells. */
  function DigitsValue(s: string): nat
    requires AllDigits(s)
    decreases |s|
  {
    if s == [] then 0 else 10 * DigitsValue(s[..|s| - 1]) + DigitValue(s[|s| - 1])
  }

  /** `fmt.Sprintf("%03d", ms)` for a millisecond of the second. */
  function Pad3(ms: nat): (r: string)
    requires ms < 1000
    ensures |r| == 3 && AllDigits(r)
  {
    [Digit(ms / 100), Digit(ms / 10 % 10), Digit(ms % 10)]
  }

  /** The padding is read back as the same number. */
  lemma Pad3Value(ms: nat)
    requires ms < 1000
    ensures DigitsValue(Pad3(ms)) == ms
  {
    var p := Pad3(ms);
    assert p[..2][..1] == [p[0]];
    assert DigitsValue(p[..2][..1]) == DigitValue(p[0]);
    assert DigitsValue(p[..2]) == 10 * (ms / 100) + ms / 10 % 10;
    assert DigitsValue(p) == 10 * (10 * (ms / 100) + ms / 10 % 10) + ms % 10;
  }

  /** A later millisecond pads to a lexicographically greater string. */
  lemma Pad3Increasing(a: nat, b: nat)
    requires a < b < 1000
    ensures LexLess(Pad3(a), Pad3(b))
  {
    Digits3(a);
    Digits3(b);
    ThreeDigitOrder(a / 100, a / 10 % 10, a % 10, b / 100, b / 10 % 10, b % 10);
    LexLessThree(Pad3(a), Pad3(b));
  }

  lemma Digits3(n: nat)
    requires n < 1000
    ensures n == 100 * (n / 100) + 10 * (n / 10 % 10) + n % 10
  {
  }

  /** Three-character strings compare on their first differing character. */
  lemma LexLessThree(x: string, y: string)
    requires |x| == 3 && |y| == 3
    requires x[0] < y[0] || (x[0] == y[0] && (x[1] < y[1] || (x[1] == y[1] && x[2] < y[2])))
    ensures LexLess(x, y)
  {
    assert x[1..][1..] == [x[2]] && y[1..][1..] == [y[2]];
    assert [x[2]][1..] == [] && [y[2]][1..] == [];
  }

  /** Three-digit numbers compare like their digit strings. */
  lemma ThreeDigitOrder(a1: nat, a2: nat, a3: nat, b1: nat, b2: nat, b3: nat)
    requires a1 < 10 && a2 < 10 && a3 < 10 && b1 < 10 && b2 < 10 && b3 < 10
    requires 100 * a1 + 10 * a2 + a3 < 100 * b1 + 10 * b2 + b3
    ensures a1 < b1 || (a1 == b1 && (a2 < b2 || (a2 == b2 && a3 < b3)))
  {
  }

  /** What the date-time layout must deliver for the stamps to be unique:
      14 digits per second and a strictly increasing string as the seconds
      grow, up to the year 10000. */
  ghost predicate ValidDateTime(dateTime: nat -> string)
  {
    && (forall sec: nat :: sec < Horizon / 1000 ==> |dateTime(sec)| == 14 && AllDigits(dateTime(sec)))
    && (forall s1: nat, s2: nat :: s1 < s2 < Horizon / 1000 ==> LexLess(dateTime(s1), dateTime(s2)))
  }

  /** The stamp of the instant `ms` (milliseconds since the epoch). */
  function Stamp(dateTime: nat -> string, ms: nat): string
  {
    dateTime(ms / 1000) + Pad3(ms % 1000)
  }

  /** Every stamp is 17 digits: 14 of date and time, 3 of milliseconds. */
  lemma StampShape(dateTime: nat -> string, ms: nat)
    requires ValidDateTime(dateTime) && ms < Horizon
    ensures |Stamp(dateTime, ms)| == 17 && AllDigits(Stamp(dateTime, ms))
  {
    var d := dateTime(ms / 1000);
    var s := Stamp(dateTime, ms);
    assert |d| == 14 && AllDigits(d);
    forall i | 0 <= i < |s| ensures IsDigit(s[i]) {
      if i < 14 { assert s[i] == d[i]; } else { assert s[i] == Pad3(ms % 1000)[i - 14]; }
    }
  }

  /** A later instant gets a strictly greater stamp, so no two instants of
      one run share a stamp and the folders sort in creation order. */
  lemma StampIncreasing(dateTime: nat -> string, a: nat, b: nat)
    requires ValidDateTime(dateTime) && a < b < Horizon
    ensures LexLess(Stamp(dateTime, a), Stamp(dateTime, b))
  {
    var da, db := dateTime(a / 1000), dateTime(b / 1000);
    if a / 1000 == b / 1000 {
      Pad3Increasing(a % 1000, b % 1000);
      LexLessPrefix(da, Pad3(a % 1000), Pad3(b % 1000));
    } else {
      assert |da| == 14 && |db| == 14;
      LexLessAppend(da, db, Pad3(a % 1000), Pad3(b % 1000));
    }
  }

  /** Distinct instants give distinct stamps. */
  lemma StampInjective(dateTime: nat -> string, a: nat, b: nat)
    requires ValidDateTime(dateTime) && a < Horizon && b < Horizon && a != b
    ensures Stamp(dateTime, a) != Stamp(dateTime, b)
  {
    if a < b {
      StampIncreasing(dateTime, a, b);
      LexLessIrreflexive(Stamp(dateTime, a));
    } else {
      StampIncreasing(dateTime, b, a);
      LexLessIrreflexive(Stamp(dateTime, b));
    }
  }
}
