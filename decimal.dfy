/**
 * `std::to_string` on unsigned counters, as the backend uses it to name
 * objects (`"obj_" + n`) and windows (`"window_" + k`).
 */
module Decimal {
  /** The decimal digit character for `d`. */
  function Digit(d: nat): (c: char)
    requires d < 10
    ensures '0' <= c <= '9'
  {
    "0123456789"[d]
  }

  /** `std::to_string(n)`: the decimal digits of `n`, without leading zeros. */
  function NatToString(n: nat): (s: string)
    ensures |s| >= 1 && (n >= 10 ==> |s| >= 2)
    ensures forall i :: 0 <= i < |s| ==> '0' <= s[i] <= '9'
    ensures |s| > 1 ==> s[0] != '0'
  {
    if n < 10 then [Digit(n)] else NatToString(n / 10) + [Digit(n % 10)]
  }

  lemma DigitInjective(a: nat, b: nat)
    requires a < 10 && b < 10 && Digit(a) == Digit(b)
    ensures a == b
  {
  }

  /** Different numbers have different decimal representations. */
  lemma {:induction false} NatToStringInjective(a: nat, b: nat)
    requires NatToString(a) == NatToString(b)
    ensures a == b
  {
    var s := NatToString(a);
    if a < 10 && b < 10 {
      DigitInjective(a, b);
    } else if a >= 10 && b >= 10 {
      var k := |s| - 1;
      assert s[k] == Digit(a % 10) == Digit(b % 10);
      DigitInjective(a % 10, b % 10);
      assert s[..k] == NatToString(a / 10) == NatToString(b / 10);
      NatToStringInjective(a / 10, b / 10);
    }
  }

  /** Two strings with the same prefix are equal exactly when their tails are. */
  lemma PrefixCancel(p: string, x: string, y: string)
    requires p + x == p + y
    ensures x == y
  {
    assert x == (p + x)[|p|..];
    assert y == (p + y)[|p|..];
  }

  /** The id `add` gives its `n`-th object. */
  function ObjectId(n: nat): string
  {
    "obj_" + NatToString(n)
  }

  /** The name `create_window` gives its `k`-th unnamed window, and the name an index addresses. */
  function WindowName(k: nat): string
  {
    "window_" + NatToString(k)
  }

  /** Object ids are never reused: different counter values give different ids. */
  lemma ObjectIdInjective(a: nat, b: nat)
    ensures ObjectId(a) == ObjectId(b) ==> a == b
  {
    if ObjectId(a) == ObjectId(b) {
      PrefixCancel("obj_", NatToString(a), NatToString(b));
      NatToStringInjective(a, b);
    }
  }

  /** Generated window names are distinct. */
  lemma WindowNameInjective(a: nat, b: nat)
    ensures WindowName(a) == WindowName(b) ==> a == b
  {
    if WindowName(a) == WindowName(b) {
      PrefixCancel("window_", NatToString(a), NatToString(b));
      NatToStringInjective(a, b);
    }
  }
}
