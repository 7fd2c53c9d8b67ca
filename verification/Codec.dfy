/** The two integer codecs of the io_uring socket: buffer indices and completion tags. */
module Codec {

  const GROUP_SIZE: nat := 16
  const U16: nat := 0x1_0000
  const U32: nat := 0x1_0000_0000
  const U64: nat := 0x1_0000_0000_0000_0000

  /** The receive buffer that is number `index` of `group`. */
  function ToU32(group: nat, index: nat): nat {
    group * GROUP_SIZE + index
  }

  /** The buffer id of a receive buffer inside its group. */
  function IndexOf(idx: nat): nat {
    idx % GROUP_SIZE
  }

  /** `ToU32` numbers the pairs (group, 0..16) without gaps and without collisions. */
  lemma GroupIndexBijection(groups: nat, idx: nat)
    ensures idx < groups * 16 <==>
            exists g: nat, i: nat {:trigger ToU32(g, i)} :: g < groups && i < 16 && ToU32(g, i) == idx
    ensures forall g: nat, i: nat :: i < 16 && ToU32(g, i) == idx ==> i == IndexOf(idx) && g == idx / 16
  {
    assert ToU32(idx / GROUP_SIZE, IndexOf(idx)) == idx;
  }

  datatype UserData = Send(slot: nat) | Recv(group: nat) | ProvideBuffers(buf: nat) {
    /** The payload fits the integer width the source gives it. */
    predicate Fits() {
      match this
      case Send(i) => i < U32
      case Recv(g) => g < U16
      case ProvideBuffers(i) => i < U32
    }
  }

  /** The 64-bit tag. The or-ed bit ranges are disjoint, so or is addition (`OrIsAddition`). */
  function Encode(u: UserData): nat {
    match u
    case Send(i) => i
    case Recv(g) => U32 + g
    case ProvideBuffers(i) => 2 * U32 + i
  }

  /** Shifting and masking, as division and remainder (`ShiftAndMask`). */
  function Decode(data: nat): UserData {
    if data / U32 == 1 then Recv(data % U16)
    else if data / U32 == 2 then ProvideBuffers(data % U32)
    else Send(data % U32)
  }

  /** Decoding undoes encoding; re-encoding undoes decoding exactly on the tags that encoding makes. */
  lemma TagRoundTrip(u: UserData, data: nat)
    ensures u.Fits() ==> Decode(Encode(u)) == u && Encode(u) < U64
    ensures Decode(data).Fits()
    ensures Encode(Decode(data)) == data <==> exists v: UserData {:trigger Encode(v)} :: v.Fits() && Encode(v) == data
  {
    forall v: UserData | v.Fits() ensures Decode(Encode(v)) == v && Encode(v) < U64 {
      match v { case Send(_) => case Recv(_) => case ProvideBuffers(_) => }
    }
    if Encode(Decode(data)) == data {
      assert Decode(data).Fits();
    }
  }

  lemma OrIsAddition(idx: bv64)
    requires idx <= 0xffff_ffff
    ensures 0x1_0000_0000 | idx == 0x1_0000_0000 + idx
    ensures 0x2_0000_0000 | idx == 0x2_0000_0000 + idx
  {}

  /** The tag of a receive is the word the source builds: its group or-ed under a one in the upper half. */
  lemma RecvWord(idx: bv64)
    requires idx <= 0xffff_ffff
    ensures Encode(Recv(idx as nat)) == (0x1_0000_0000 | idx) as nat
  {
    assert 0x1_0000_0000 | idx == 0x1_0000_0000 + idx;
  }

  /** The tag of a provided buffer has a two in the upper half. */
  lemma BuffersWord(idx: bv64)
    requires idx <= 0xffff_ffff
    ensures Encode(ProvideBuffers(idx as nat)) == (0x2_0000_0000 | idx) as nat
  {
    assert 0x2_0000_0000 | idx == 0x2_0000_0000 + idx;
  }

  /** Whatever else the upper half is, a tag is read as a send; a receive keeps the lower sixteen bits of its half. */
  lemma ForeignTags(high: nat, low: nat)
    requires low < U32
    ensures high != 1 && high != 2 ==> Decode(high * U32 + low) == Send(low)
    ensures Decode(U32 + low) == Recv(low % 0x1_0000) && Decode(2 * U32 + low) == ProvideBuffers(low)
  {
    assert (high * U32 + low) / U32 == high && (high * U32 + low) % U32 == low;
    assert (U32 + low) % U16 == low % U16;
  }

  lemma ShiftAndMask(data: bv64)
    ensures data >> 32 == data / 0x1_0000_0000
    ensures data & 0xffff_ffff == data % 0x1_0000_0000
    ensures data & 0xffff == data % 0x1_0000
  {}
}
