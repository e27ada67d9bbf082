/** Facts about 32-bit words that the address rules need. */
module AddressBits {
  /** The bits under the mask and the others make up the word. */
  lemma Parts(ip: bv32, mask: bv32)
    ensures (ip & mask) | (ip & !mask) == ip
  {
  }

  lemma Apart(ip: bv32, mask: bv32)
    ensures (ip & mask) & !mask == 0
  {
  }

  lemma Filled(net: bv32, mask: bv32)
    ensures (net | !mask) & !mask == !mask
  {
  }

  lemma OrZero(a: bv32)
    ensures a | 0 == a
  {
  }

  lemma NoHostBits(ip: bv32, mask: bv32)
    ensures ip == ip & mask <==> ip & !mask == 0
  {
    Parts(ip, mask);
    Apart(ip, mask);
    OrZero(ip & mask);
    if ip & !mask == 0 {
      assert ip == (ip & mask) | 0;
    }
  }

  lemma AllHostBits(ip: bv32, mask: bv32)
    ensures ip == (ip & mask) | !mask <==> ip & !mask == !mask
  {
    Parts(ip, mask);
    Filled(ip & mask, mask);
    if ip & !mask == !mask {
      assert ip == (ip & mask) | !mask;
    }
  }

  lemma MaskedDifference(a: bv32, b: bv32, mask: bv32)
    ensures (a ^ b) & mask == (a & mask) ^ (b & mask)
  {
  }

  lemma NoDifference(a: bv32, b: bv32)
    ensures a ^ b == 0 <==> a == b
  {
  }
}
