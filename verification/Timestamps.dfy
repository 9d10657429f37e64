/**
 Stored timestamps are strings, and the database compares them as strings. For four-digit years the
 string order is the order of the times, truncated to milliseconds.
 */
module Timestamps {

  /** A UTC date and time to the microsecond, as the interpreter's clock returns it. */
  datatype DateTime = DateTime(year: nat, month: nat, day: nat, hour: nat, minute: nat, second: nat, micro: nat)

  predicate Valid(t: DateTime) {
    1000 <= t.year < 10000 && t.month < 100 && t.day < 100 && t.hour < 100 && t.minute < 100 && t.second < 100
    && t.micro < 1000000
  }

  function Truncated(t: DateTime): DateTime {
    t.(micro := t.micro - t.micro % 1000)
  }

  predicate Before(a: DateTime, b: DateTime) {
    if a.year != b.year then a.year < b.year
    else if a.month != b.month then a.month < b.month
    else if a.day != b.day then a.day < b.day
    else if a.hour != b.hour then a.hour < b.hour
    else if a.minute != b.minute then a.minute < b.minute
    else if a.second != b.second then a.second < b.second
    else a.micro < b.micro
  }

  function Pow10(width: nat): nat {
    if width == 0 then 1 else 10 * Pow10(width - 1)
  }

  function Digit(d: nat): char
    requires d < 10
  {
    '0' + d as char
  }

  /** The last `width` decimal digits of n, with leading zeros. */
  function Digits(n: nat, width: nat): (s: string)
    ensures |s| == width
  {
    if width == 0 then "" else Digits(n / 10, width - 1) + [Digit(n % 10)]
  }

  /** What follows the year, with `fraction` after the decimal point. */
  function Tail(t: DateTime, fraction: string, field: nat): string
    decreases 6 - field
  {
    match field
    case 0 => "-" + (Digits(t.month, 2) + Tail(t, fraction, 1))
    case 1 => "-" + (Digits(t.day, 2) + Tail(t, fraction, 2))
    case 2 => "T" + (Digits(t.hour, 2) + Tail(t, fraction, 3))
    case 3 => ":" + (Digits(t.minute, 2) + Tail(t, fraction, 4))
    case 4 => ":" + (Digits(t.second, 2) + Tail(t, fraction, 5))
    case _ => "." + fraction
  }

  /** `%Y-%m-%dT%H:%M:%S.%f` */
  function StrfTime(t: DateTime): string {
    Digits(t.year, 4) + Tail(t, Digits(t.micro, 6), 0)
  }

  /** The stored form: the microseconds lose their last three digits and a "Z" is appended. */
  function Stored(t: DateTime): string {
    var s := StrfTime(t);
    (if |s| >= 3 then s[..|s| - 3] else "") + "Z"
  }

  /** Lexicographic order of strings, as in a SQL comparison of ASCII text. */
  predicate Less(a: string, b: string) {
    if b == "" then false
    else if a == "" then true
    else if a[0] != b[0] then a[0] < b[0]
    else Less(a[1..], b[1..])
  }

  lemma {:induction false} LessIsATotalOrder(a: string, b: string, c: string)
    ensures !Less(a, a)
    ensures !Less(b, a) && !Less(c, b) ==> !Less(c, a)
    ensures Less(a, b) || Less(b, a) || a == b
    decreases |a| + |b| + |c|
  {
    if a != "" {
      if b != "" && c != "" {
        LessIsATotalOrder(a[1..], b[1..], c[1..]);
      } else if b != "" {
        LessIsATotalOrder(a[1..], b[1..], c);
      } else {
        LessIsATotalOrder(a[1..], b, c);
      }
      assert b != "" && a[0] == b[0] && a[1..] == b[1..] ==> a == [a[0]] + a[1..] == [b[0]] + b[1..] == b;
    }
  }

  lemma LessUnderOneChar(x: char, y: char, a: string, b: string)
    ensures Less([x] + a, [y] + b) <==> x < y || (x == y && Less(a, b))
  {
    assert ([x] + a)[1..] == a && ([y] + b)[1..] == b;
  }

  /** Equally wide decimal numerals compare as their numbers; if equal, what follows decides. */
  lemma {:induction false} LessUnderDigits(m: nat, n: nat, width: nat, a: string, b: string)
    requires m < Pow10(width) && n < Pow10(width)
    ensures Less(Digits(m, width) + a, Digits(n, width) + b) <==> m < n || (m == n && Less(a, b))
    decreases width
  {
    if width == 0 {
      assert Digits(m, 0) + a == a && Digits(n, 0) + b == b;
    } else {
      var x, y := Digit(m % 10), Digit(n % 10);
      assert Digits(m, width) + a == Digits(m / 10, width - 1) + ([x] + a);
      assert Digits(n, width) + b == Digits(n / 10, width - 1) + ([y] + b);
      LessUnderDigits(m / 10, n / 10, width - 1, [x] + a, [y] + b);
      LessUnderOneChar(x, y, a, b);
    }
  }

  lemma LastThreeDigits(n: nat)
    ensures Digits(n, 6)[..3] == Digits(n / 1000, 3)
  {
    var a, b := n / 10, n / 100;
    assert b == a / 10 && n / 1000 == b / 10;
    assert Digits(n, 6) == Digits(a, 5) + [Digit(n % 10)];
    assert Digits(a, 5) == Digits(b, 4) + [Digit(a % 10)];
    assert Digits(b, 4) == Digits(n / 1000, 3) + [Digit(b % 10)];
  }

  lemma {:induction false} TailAppends(t: DateTime, a: string, b: string, field: nat)
    ensures Tail(t, a + b, field) == Tail(t, a, field) + b
    decreases 6 - field
  {
    if field < 5 {
      TailAppends(t, a, b, field + 1);
    }
  }

  /** Cutting three digits off the end leaves the milliseconds. */
  lemma StoredByField(t: DateTime)
    ensures Stored(t) == Digits(t.year, 4) + Tail(t, Digits(t.micro / 1000, 3) + "Z", 0)
  {
    LastThreeDigits(t.micro);
    var six, three := Digits(t.micro, 6), Digits(t.micro / 1000, 3);
    assert six == three + six[3..];
    TailAppends(t, three, six[3..], 0);
    TailAppends(t, three, "Z", 0);
    CutAndAppend(Digits(t.year, 4), Tail(t, three, 0), six[3..]);
  }

  lemma CutAndAppend(year: string, rest: string, last: string)
    requires |last| == 3
    ensures var s := year + (rest + last);
            s[..|s| - 3] + "Z" == year + (rest + "Z")
  {
    var s := year + (rest + last);
    assert s[..|s| - 3] == year + rest;
  }

  function Fraction(t: DateTime): string {
    Digits(t.micro / 1000, 3) + "Z"
  }

  lemma TailsCompare(a: DateTime, b: DateTime, field: nat)
    requires Valid(a) && Valid(b) && field <= 5
    ensures Less(Tail(a, Fraction(a), field), Tail(b, Fraction(b), field)) <==>
      match field
      case 0 => a.month < b.month || (a.month == b.month && Less(Tail(a, Fraction(a), 1), Tail(b, Fraction(b), 1)))
      case 1 => a.day < b.day || (a.day == b.day && Less(Tail(a, Fraction(a), 2), Tail(b, Fraction(b), 2)))
      case 2 => a.hour < b.hour || (a.hour == b.hour && Less(Tail(a, Fraction(a), 3), Tail(b, Fraction(b), 3)))
      case 3 => a.minute < b.minute || (a.minute == b.minute && Less(Tail(a, Fraction(a), 4), Tail(b, Fraction(b), 4)))
      case 4 => a.second < b.second || (a.second == b.second && Less(Tail(a, Fraction(a), 5), Tail(b, Fraction(b), 5)))
      case _ => a.micro / 1000 < b.micro / 1000
  {
    assert Pow10(2) == 100 && Pow10(3) == 1000;
    var x, y := Tail(a, Fraction(a), field), Tail(b, Fraction(b), field);
    assert x == [x[0]] + x[1..] && y == [x[0]] + y[1..];
    LessUnderOneChar(x[0], x[0], x[1..], y[1..]);
    match field
    case 0 => LessUnderDigits(a.month, b.month, 2, Tail(a, Fraction(a), 1), Tail(b, Fraction(b), 1));
    case 1 => LessUnderDigits(a.day, b.day, 2, Tail(a, Fraction(a), 2), Tail(b, Fraction(b), 2));
    case 2 => LessUnderDigits(a.hour, b.hour, 2, Tail(a, Fraction(a), 3), Tail(b, Fraction(b), 3));
    case 3 => LessUnderDigits(a.minute, b.minute, 2, Tail(a, Fraction(a), 4), Tail(b, Fraction(b), 4));
    case 4 => LessUnderDigits(a.second, b.second, 2, Tail(a, Fraction(a), 5), Tail(b, Fraction(b), 5));
    case _ =>
      LessUnderDigits(a.micro / 1000, b.micro / 1000, 3, "Z", "Z");
      LessIsATotalOrder("Z", "Z", "Z");
  }

  /** Stored timestamps order exactly as the times they truncate. */
  lemma StoredOrderIsTimeOrder(a: DateTime, b: DateTime)
    requires Valid(a) && Valid(b)
    ensures Less(Stored(a), Stored(b)) <==> Before(Truncated(a), Truncated(b))
  {
    StoredByField(a);
    StoredByField(b);
    assert Pow10(4) == 10000;
    LessUnderDigits(a.year, b.year, 4, Tail(a, Fraction(a), 0), Tail(b, Fraction(b), 0));
    TailsCompare(a, b, 0);
    TailsCompare(a, b, 1);
    TailsCompare(a, b, 2);
    TailsCompare(a, b, 3);
    TailsCompare(a, b, 4);
    TailsCompare(a, b, 5);
  }

  /** In particular a later moment never has a smaller stamp. */
  lemma LaterIsNotLess(a: DateTime, b: DateTime)
    requires Valid(a) && Valid(b) && !Before(b, a)
    ensures !Less(Stored(b), Stored(a))
  {
    StoredOrderIsTimeOrder(b, a);
    TruncationIsMonotone(a, b);
  }

  lemma TruncationIsMonotone(a: DateTime, b: DateTime)
    ensures Before(Truncated(b), Truncated(a)) ==> Before(b, a)
  {
    assert a.micro == b.micro ==> Truncated(a).micro == Truncated(b).micro;
  }
}
