/** The table a transport starts with (datagram_buf.h): DatagramTable under the pointer hash. */
module TransportTable {
  import opened DatagramTable
  import opened Modulo

  /** aiopquic_dgram_hash_ptr on a 64-bit pointer. */
  function HashPtr(p: nat): nat {
    var v0: bv64 := (p % U64) as bv64;
    var v1: bv64 := (v0 ^ (v0 >> 33)) * 0xff51afd7ed558ccd;
    ((v1 ^ (v1 >> 33)) as nat) % U32
  }

  /** The table of a transport: empty, keyed by the pointer hash. */
  method NewTable() returns (t: Table)
    ensures fresh(t) && t.Valid() && t.hash == HashPtr && t.m == map[] && t.refs == multiset{}
  {
    t := new Table(HashPtr);
  }
}
