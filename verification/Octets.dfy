/** Bytes and the numbers they stand for. */
module Octets {

  lemma ByteValue(n: int)
    requires 0 <= n < 256
    ensures (n as bv8) as int == n
  {
  }
}
