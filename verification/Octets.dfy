// Byte strings: exclusive or, and integers in network byte order.

module OctetStrings {

  type byte = n: nat | n < 256

  type Bytes = seq<byte>

  // The exclusive or of the lowest `bits` bits.
  function XorBits(a: nat, b: nat, bits: nat): nat {
    if bits == 0 then 0 else 2 * XorBits(a / 2, b / 2, bits - 1) + (a + b) % 2
  }

  function Pow2(bits: nat): nat {
    if bits == 0 then 1 else 2 * Pow2(bits - 1)
  }

  lemma {:induction false} XorInRange(a: nat, b: nat, bits: nat)
    ensures XorBits(a, b, bits) < Pow2(bits)
  {
    if bits > 0 {
      XorInRange(a / 2, b / 2, bits - 1);
    }
  }

  lemma {:induction false} XorTwice(a: nat, b: nat, bits: nat)
    requires a < Pow2(bits)
    ensures XorBits(XorBits(a, b, bits), b, bits) == a
  {
    if bits > 0 {
      XorTwice(a / 2, b / 2, bits - 1);
      Parity(a, b, XorBits(a / 2, b / 2, bits - 1));
    }
  }

  lemma Parity(a: nat, b: nat, x: nat)
    ensures (2 * x + (a + b) % 2) / 2 == x
    ensures (2 * x + (a + b) % 2 + b) % 2 == a % 2
    ensures a == 2 * (a / 2) + a % 2
  {
    var c := (a + b) % 2;
    assert (2 * x + c + b) % 2 == (c + b) % 2;
  }

  lemma OctetRange()
    ensures Pow2(8) == 256
  {
    assert Pow2(4) == 16;
  }

  function Xor(a: byte, b: byte): byte {
    XorInRange(a, b, 8);
    OctetRange();
    XorBits(a, b, 8)
  }

  lemma XorInvolution(a: byte, b: byte)
    ensures Xor(Xor(a, b), b) == a
  {
    OctetRange();
    XorTwice(a, b, 8);
  }

  // Bit `i`, counting from the lowest.
  function Bit(n: nat, i: nat): nat {
    if i == 0 then n % 2 else Bit(n / 2, i - 1)
  }

  lemma {:induction false} XorBitsBit(a: nat, b: nat, bits: nat, i: nat)
    requires i < bits
    ensures Bit(XorBits(a, b, bits), i) == if Bit(a, i) == Bit(b, i) then 0 else 1
  {
    Parity(a, b, XorBits(a / 2, b / 2, bits - 1));
    if i > 0 {
      XorBitsBit(a / 2, b / 2, bits - 1, i - 1);
    } else {
      assert XorBits(a, b, bits) % 2 == (a + b) % 2;
    }
  }

  // Each bit of the exclusive or is set iff the two differ there.
  lemma XorBit(a: byte, b: byte, i: nat)
    requires i < 8
    ensures Bit(Xor(a, b), i) == if Bit(a, i) == Bit(b, i) then 0 else 1
  {
    XorBitsBit(a, b, 8, i);
  }

  // ---- network byte order

  // The octet of `n` with `i` octets below it.
  function OctetOf(n: nat, i: nat): nat {
    if i == 0 then n % 256 else OctetOf(n / 256, i - 1)
  }

  lemma {:induction false} MostSignificantFirst(n: nat, k: nat, i: nat)
    requires i < k
    ensures BigEndian(n, k)[i] == OctetOf(n, k - 1 - i)
  {
    if i < k - 1 {
      MostSignificantFirst(n / 256, k - 1, i);
    }
  }

  function Pow256(k: nat): nat {
    if k == 0 then 1 else 256 * Pow256(k - 1)
  }

  // `n` in `k` octets, most significant first; the octets above are cut off.
  function BigEndian(n: nat, k: nat): (bs: Bytes)
    ensures |bs| == k
  {
    if k == 0 then [] else BigEndian(n / 256, k - 1) + [(n % 256)]
  }

  function Uint(bs: Bytes): nat {
    if bs == [] then 0 else 256 * Uint(bs[..|bs| - 1]) + bs[|bs| - 1]
  }

  lemma {:induction false} UintOfBigEndian(n: nat, k: nat)
    requires n < Pow256(k)
    ensures Uint(BigEndian(n, k)) == n
  {
    if k > 0 {
      var bs := BigEndian(n, k);
      assert bs[..|bs| - 1] == BigEndian(n / 256, k - 1);
      UintOfBigEndian(n / 256, k - 1);
    }
  }

  lemma {:induction false} UintInRange(bs: Bytes)
    ensures Uint(bs) < Pow256(|bs|)
  {
    if bs != [] {
      UintInRange(bs[..|bs| - 1]);
    }
  }
}

// A connected socket's receiving half: what the peer sends arrives in chunks of
// any size, and an empty chunk means that it has closed.

module Sockets {
  import opened OctetStrings

  class Socket {
    var incoming: Bytes  // what the peer is still to deliver before it closes

    constructor (incoming: Bytes)
      ensures this.incoming == incoming
    {
      this.incoming := incoming;
    }

    method Recv(max: nat) returns (chunk: Bytes)
      requires max > 0
      modifies this
      ensures chunk + incoming == old(incoming) && |chunk| <= max
      ensures chunk == [] <==> old(incoming) == []
    {
      var n: int := *;
      if n <= 0 || n > |incoming| || n > max {
        n := if incoming == [] then 0 else 1;
      }
      chunk := incoming[..n];
      incoming := incoming[n..];
    }
  }
}
