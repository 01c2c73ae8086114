/**
 * The keys of the `plots` map: the template literal `${x},${z}` over two
 * integer tile coordinates, with integers printed in decimal the way
 * JavaScript prints them (a leading '-' for negatives, no leading zeros).
 */
module PlotKeys {

  predicate IsDigit(c: char) {
    '0' <= c <= '9'
  }

  function DigitChar(d: nat): (c: char)
    requires d < 10
    ensures IsDigit(c)
  {
    "0123456789"[d]
  }

  /** Decimal digits of n, most significant first. */
  function NatToString(n: nat): (s: string)
    ensures |s| >= 1
    ensures forall i :: 0 <= i < |s| ==> IsDigit(s[i])
    ensures n < 10 <==> |s| == 1
    decreases n
  {
    if n < 10 then [DigitChar(n)] else NatToString(n / 10) + [DigitChar(n % 10)]
  }

  /** `${i}` for an integer-valued number. */
  function IntToString(i: int): (s: string)
    ensures |s| >= 1
    ensures ',' !in s
    ensures s[0] == '-' <==> i < 0
  {
    if i < 0 then "-" + NatToString(-i) else NatToString(i)
  }

  /**
   * getPlotKey(x, z): the key holds exactly one comma, right after the
   * rendering of x, and starts with '-' exactly when x is negative.
   */
  function PlotKey(x: int, z: int): (s: string)
    ensures var n := |IntToString(x)|;
      n < |s| && s[n] == ',' && ',' !in s[..n] && ',' !in s[n + 1..]
    ensures s[0] == '-' <==> x < 0
  {
    var s := IntToString(x) + "," + IntToString(z);
    assert s[..|IntToString(x)|] == IntToString(x);
    assert s[|IntToString(x)| + 1..] == IntToString(z);
    s
  }

  lemma DigitCharInjective(a: nat, b: nat)
    requires a < 10 && b < 10 && DigitChar(a) == DigitChar(b)
    ensures a == b
  {
  }

  lemma {:induction false} NatToStringInjective(a: nat, b: nat)
    requires NatToString(a) == NatToString(b)
    ensures a == b
    decreases a
  {
    var s := NatToString(a);
    if a >= 10 {
      assert b >= 10;
      assert s == NatToString(a / 10) + [DigitChar(a % 10)];
      assert s == NatToString(b / 10) + [DigitChar(b % 10)];
      assert s[..|s| - 1] == NatToString(a / 10) == NatToString(b / 10);
      DigitCharInjective(a % 10, b % 10);
      NatToStringInjective(a / 10, b / 10);
    } else {
      assert b < 10;
      DigitCharInjective(a, b);
    }
  }

  lemma IntToStringInjective(a: int, b: int)
    requires IntToString(a) == IntToString(b)
    ensures a == b
  {
    if a < 0 {
      assert b < 0;
      assert NatToString(-a) == IntToString(a)[1..] == NatToString(-b);
      NatToStringInjective(-a, -b);
    } else {
      assert b >= 0;
      NatToStringInjective(a, b);
    }
  }

  /** Two comma-free prefixes before a comma are determined by the whole string. */
  lemma SplitAtComma(a: string, b: string, c: string, d: string)
    requires ',' !in a && ',' !in c
    requires a + "," + b == c + "," + d
    ensures a == c && b == d
  {
    var s := a + "," + b;
    assert |a| == |c| by {
      assert s[|a|] == ',';
      assert s[|c|] == ',';
    }
    assert a == s[..|a|] == c;
    assert b == s[|a| + 1..] == d;
  }

  /**
   * getPlotKey is injective on integer pairs: the `plots` map, keyed by
   * these strings, holds at most one plot per tile coordinate.
   */
  lemma PlotKeyInjective(x1: int, z1: int, x2: int, z2: int)
    ensures PlotKey(x1, z1) == PlotKey(x2, z2) <==> x1 == x2 && z1 == z2
  {
    if PlotKey(x1, z1) == PlotKey(x2, z2) {
      SplitAtComma(IntToString(x1), IntToString(z1), IntToString(x2), IntToString(z2));
      IntToStringInjective(x1, x2);
      IntToStringInjective(z1, z2);
    }
  }
}
