/** Conversions between numbers below 256 and bytes. */
module Bytes {
  lemma {:induction false} ByteFor(n: nat) returns (b: bv8)
    requires n < 256
    ensures b as int == n
  {
    if n == 0 {
      b := 0;
    } else {
      var before := ByteFor(n - 1);
      assert before < 255;
      b := before + 1;
    }
  }

  lemma ByteRoundTrip(n: nat)
    requires n < 256
    ensures (n as bv8) as int == n
  {
    var b := ByteFor(n);
    assert b as int as bv8 == b;
  }
}
