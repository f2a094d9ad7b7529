/** IPv4 addresses as the resolver handles them: four bytes, printed by Go's
    net.IP.String in dotted-decimal form. */
module Ipv4 {
  import opened Text

  type Byte = x: int | 0 <= x < 256

  datatype IPv4 = IPv4(a: Byte, b: Byte, c: Byte, d: Byte) {

    /** net.IP.String for a four-byte address, e.g. "127.0.66.0". */
    function String(): (r: string)
      ensures |r| >= 7
    {
      NatToString(a) + ("." + (NatToString(b) + ("." + (NatToString(c) + ("." + NatToString(d))))))
    }
  }

  /** Splitting at the first dot: a digit string followed by a dot is
      determined by the text it prefixes. */
  lemma DigitsBeforeDot(u: string, v: string, r1: string, r2: string)
    requires AllDigits(u) && AllDigits(v)
    requires u + ("." + r1) == v + ("." + r2)
    ensures u == v && r1 == r2
  {
    var s := u + ("." + r1);
    if |u| < |v| {
      DotAfter(u, r1, v, r2);
      assert false;
    } else if |v| < |u| {
      DotAfter(v, r2, u, r1);
      assert false;
    }
    assert u == s[..|u|] == v;
    assert "." + r1 == s[|u|..] == "." + r2;
    assert r1 == ("." + r1)[1..];
  }

  /** The dot that follows a shorter prefix lands inside a longer one. */
  lemma DotAfter(u: string, r1: string, v: string, r2: string)
    ensures (u + ("." + r1))[|u|] == '.'
    ensures |u| < |v| ==> (v + ("." + r2))[|u|] == v[|u|]
  {
  }

  /** Distinct addresses print differently, so the printed form is a faithful
      key for an address. */
  lemma {:induction false} StringInjective(x: IPv4, y: IPv4)
    ensures x.String() == y.String() <==> x == y
  {
    if x.String() == y.String() {
      var ra := "." + (NatToString(x.c) + ("." + NatToString(x.d)));
      var rb := "." + (NatToString(y.c) + ("." + NatToString(y.d)));
      DigitsBeforeDot(NatToString(x.a), NatToString(y.a), NatToString(x.b) + ra, NatToString(y.b) + rb);
      DigitsBeforeDot(NatToString(x.b), NatToString(y.b), NatToString(x.c) + ("." + NatToString(x.d)),
                      NatToString(y.c) + ("." + NatToString(y.d)));
      DigitsBeforeDot(NatToString(x.c), NatToString(y.c), NatToString(x.d), NatToString(y.d));
      NatToStringInjective(x.a, y.a);
      NatToStringInjective(x.b, y.b);
      NatToStringInjective(x.c, y.c);
      NatToStringInjective(x.d, y.d);
    }
  }
}
