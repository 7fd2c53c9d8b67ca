/** What the UDP transports of the server share: packets, and what sending one may come to. */
module Net {

  type Bytes = seq<bv8>

  datatype SocketAddr = SocketAddr(ip: nat, port: nat)

  datatype Packet = Packet(payload: Bytes, addr: SocketAddr)

  /** A datagram on the wire, with the number of the `add_send_to` call that accepted it. */
  datatype Sent = Sent(ticket: nat, packet: Packet)

  const MAX_PAYLOAD: nat := 1500

  /** A send slot: a fixed buffer, the length in use, and the destination. */
  datatype NetPacket = NetPacket(buf: Bytes, len: nat, addr: SocketAddr) {
    predicate Valid() {
      |buf| == MAX_PAYLOAD && len <= MAX_PAYLOAD
    }

    /** What a reader of the slot sees. */
    function View(): Packet
      requires Valid()
    {
      Packet(buf[..len], addr)
    }

    /** Overwriting a slot: the tail of the buffer keeps old bytes. */
    function Fill(data: Bytes, dest: SocketAddr): (p: NetPacket)
      requires Valid() && |data| <= MAX_PAYLOAD
      ensures p.Valid() && p.View() == Packet(data, dest)
    {
      NetPacket(data + buf[|data|..], |data|, dest)
    }
  }

  /**
   * The abstract send side that every transport refines: a datagram that reaches the wire is one
   * that was accepted, byte for byte and with its destination, and no acceptance goes out twice.
   */
  ghost predicate AtMostOnce(accepted: seq<Packet>, wire: seq<Sent>) {
    && (forall i :: 0 <= i < |wire| ==> wire[i].ticket < |accepted| && wire[i].packet == accepted[wire[i].ticket])
    && (forall i, j :: 0 <= i < j < |wire| ==> wire[i].ticket != wire[j].ticket)
  }

  /** As above, and in the order of acceptance. */
  ghost predicate InOrder(accepted: seq<Packet>, wire: seq<Sent>) {
    && AtMostOnce(accepted, wire)
    && (forall i, j :: 0 <= i < j < |wire| ==> wire[i].ticket < wire[j].ticket)
  }
}
