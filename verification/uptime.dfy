/** The `uptime` reply: elapsed whole seconds split into days, hours,
    minutes and seconds, each printed with at least two digits. */
module Uptime {

  datatype Duration = Duration(days: nat, hours: nat, minutes: nat, seconds: nat)

  /** The number of seconds a duration stands for. */
  function TotalSeconds(u: Duration): nat
  {
    u.days * 86400 + u.hours * 3600 + u.minutes * 60 + u.seconds
  }

  /** Hours, minutes and seconds each below their carry limit. */
  predicate Normalized(u: Duration)
  {
    u.hours < 24 && u.minutes < 60 && u.seconds < 60
  }

  /** The split of elapsed seconds `d`, with the source's integer division
      and remainder (for d >= 0 they agree with Dafny's). */
  function Split(d: nat): (u: Duration)
    ensures Normalized(u)
    ensures u.days == d / 86400
    ensures TotalSeconds(u) == d
  {
    var u := Duration(d / 86400, (d / 3600) % 24, (d / 60) % 60, d % 60);
    assert d == (d / 60) * 60 + d % 60;
    assert d / 60 == (d / 3600) * 60 + (d / 60) % 60;
    assert d / 3600 == (d / 86400) * 24 + (d / 3600) % 24;
    u
  }

  /** Splitting is the inverse of TotalSeconds on normalized durations, so
      the split is the only normalized duration with that total. */
  lemma SplitOfTotal(u: Duration)
    requires Normalized(u)
    ensures Split(TotalSeconds(u)) == u
  {
    var d := TotalSeconds(u);
    var m := u.days * 1440 + u.hours * 60 + u.minutes;
    var h := u.days * 24 + u.hours;
    assert d == m * 60 + u.seconds;
    assert d / 60 == m && d % 60 == u.seconds;
    assert m == h * 60 + u.minutes;
    assert m % 60 == u.minutes && m / 60 == h;
    assert d / 3600 == h;
    assert h % 24 == u.hours && h / 24 == u.days;
    assert d / 86400 == u.days;
  }

  /** The decimal digit for 0 <= k < 10. */
  function Digit(k: nat): (c: char)
    requires k < 10
    ensures '0' <= c <= '9' && c as int - '0' as int == k
  {
    ('0' as int + k) as char
  }

  /** `n` in decimal, without leading zeros. */
  function Decimal(n: nat): (s: string)
    ensures 1 <= |s|
    ensures forall i :: 0 <= i < |s| ==> '0' <= s[i] <= '9'
    ensures n >= 10 ==> s[0] != '0'
  {
    if n < 10 then [Digit(n)] else Decimal(n / 10) + [Digit(n % 10)]
  }

  /** The number a string of decimal digits denotes. */
  function DigitsValue(s: string): int
  {
    if s == [] then 0 else DigitsValue(s[..|s| - 1]) * 10 + (s[|s| - 1] as int - '0' as int)
  }

  /** Reading the printed digits back gives the number. */
  lemma {:induction false} DecimalRoundTrip(n: nat)
    ensures DigitsValue(Decimal(n)) == n
  {
    if n >= 10 {
      DecimalRoundTrip(n / 10);
      var s := Decimal(n);
      assert s[..|s| - 1] == Decimal(n / 10);
    } else {
      assert Decimal(n)[..0] == [];
    }
  }

  /** `%02d`: decimal digits only, padded with one leading zero below 10 and
      never otherwise. */
  function TwoDigits(n: nat): (s: string)
    ensures 2 <= |s|
    ensures n < 100 ==> |s| == 2
    ensures forall i :: 0 <= i < |s| ==> '0' <= s[i] <= '9'
    ensures n >= 10 ==> s[0] != '0'
    ensures DigitsValue(s) == n
  {
    DecimalRoundTrip(n);
    if n < 10 then
      var s := "0" + Decimal(n);
      assert s[..1] == "0" && s[..1][..0] == [];
      s
    else
      assert Decimal(n) == Decimal(n / 10) + [Digit(n % 10)];
      Decimal(n)
  }
}
