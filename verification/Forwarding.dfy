/** Relaying one write packet after the other to the next chunkserver of a chain: a packet
    is received into an InputBuffer and sent on from it. */
module Forwarding {
  import opened ChunkTypes
  import opened OutputBuffers

  const PACKET_HEADER: nat := 8

  /** The bytes of the current packet, by the buffer they are in. */
  datatype Parts = Parts(head: seq<u8>, body: seq<u8>) {
    function Joined(): seq<u8> { head + body }
  }

  /** Sending the head before the body sends a prefix of the packet. */
  lemma SentIsPrefix(received: Parts, sent: Parts)
    requires sent.head <= received.head && sent.body <= received.body && (sent.body != [] ==> sent.head == received.head)
    ensures sent.Joined() <= received.Joined()
  {}

  /** InputBuffer with the packet counters of its connection. */
  class Relay {
    const headerSize: nat
    const header: Buffer
    const block: Buffer
    /** writeInfo_.size(). */
    var count: nat
    /** inputPacket.bytesLeft and fwdOutputPacket.bytesLeft. */
    var bytesLeft: nat
    var forwardLeft: nat

    /** The packets completed before the current one. */
    ghost var packets: seq<Parts>
    ghost const Repr: set<object>

    ghost predicate Apart()
      reads this, header, block
    {
      && header != block && header.data != block.data && Repr == {this, header, block, header.data, block.data}
      && header.Valid() && block.Valid() && PACKET_HEADER <= headerSize
    }

    /** Where the header and the payload of write i lie. */
    function HeadAt(i: nat): nat { header.padding + Slot(i, headerSize) }
    function BodyAt(i: nat): nat { block.padding + Slot(i, BLOCK_SIZE) }

    ghost predicate Placed()
      requires Apart()
      reads this, header, block
    {
      && count > 0 && HeadAt(count - 1) + PACKET_HEADER <= header.last <= HeadAt(count - 1) + headerSize <= header.data.Length
      && BodyAt(count - 1) <= block.first && HeadAt(count - 1) <= header.first
      && block.last <= BodyAt(count - 1) + BLOCK_SIZE <= block.data.Length
      && bytesLeft <= HeadAt(count - 1) + headerSize - header.last + (BodyAt(count - 1) + BLOCK_SIZE - block.last)
      && (block.last > BodyAt(count - 1) ==> header.last == HeadAt(count - 1) + headerSize)
      && (block.first > BodyAt(count - 1) ==> header.first == header.last)
      && forwardLeft == header.BytesInABuffer() + block.BytesInABuffer()
    }

    /** The completed packets still lie where they were received. */
    ghost predicate Kept()
      requires Apart()
      reads this, Repr, header, block
    {
      |packets| == count - 1 && Slots(header.data[..], header.padding, headerSize, block.data[..], block.padding, packets)
    }

    ghost predicate Valid()
      reads this, Repr, header, block
    {
      Apart() && Placed() && Kept()
    }

    ghost function Received(): Parts
      requires Valid()
      reads this, Repr, header, block
    {
      Parts(header.data[HeadAt(count - 1)..header.last], block.data[BodyAt(count - 1)..block.last])
    }

    ghost function Sent(): Parts
      requires Valid()
      reads this, Repr, header, block
    {
      Parts(header.data[HeadAt(count - 1)..header.first], block.data[BodyAt(count - 1)..block.first])
    }

    constructor (headerSize: nat, numBlocks: nat, padding: nat)
      requires PACKET_HEADER <= headerSize
      ensures Idle() && count == 0 && fresh(Repr)
      ensures header.data.Length == numBlocks * headerSize && block.data.Length == padding + numBlocks * BLOCK_SIZE
    {
      var h := new Buffer(numBlocks * headerSize, 0);
      var b := new Buffer(numBlocks * BLOCK_SIZE, padding);
      this.headerSize, header, block := headerSize, h, b;
      count, bytesLeft, forwardLeft, packets := 0, 0, 0, [];
      Repr := {this, h, b, h.data, b.data};
    }

    /** Between packets: everything received was sent on. */
    ghost predicate Idle()
      reads this, Repr, header, block
    {
      && Apart() && bytesLeft == 0 && forwardLeft == 0
      && if count == 0 then packets == [] && header.first == header.last == HeadAt(0) && block.first == block.last == BodyAt(0)
         else Placed() && Kept() && header.last == HeadAt(count)
    }

    /** A packet with a whole header leaves the relay ready for the next once it was received
        and sent on completely. */
    lemma CompleteIsIdle()
      requires Valid() && bytesLeft == 0 && forwardLeft == 0 && |Received().Joined()| >= headerSize
      ensures Idle()
    {
      assert HeadAt(count) == HeadAt(count - 1) + headerSize;
    }

    /** All packets received completely, as the buffers hold them. */
    ghost function Completed(): seq<Parts>
      requires Idle()
      reads this, Repr, header, block
    {
      if count == 0 then [] else packets + [Received()]
    }

    lemma CompletedSlots()
      requires Idle()
      ensures Apart() && header.first == header.last == HeadAt(count)
      ensures |Completed()| == count && Slots(header.data[..], header.padding, headerSize, block.data[..], block.padding, Completed())
    {
      if count > 0 {
        SlotsSnoc(header.data[..], header.padding, headerSize, block.data[..], block.padding, packets, Received());
      }
    }

    /** prepareForNewWriteData for a packet that must be forwarded, once its packet header
        is complete. */
    method Begin(packetHeader: seq<u8>, length: nat)
      requires Idle() && |packetHeader| == PACKET_HEADER
      requires HeadAt(count) + headerSize <= header.data.Length && BodyAt(count) + BLOCK_SIZE <= block.data.Length
      requires length <= headerSize - PACKET_HEADER + BLOCK_SIZE
      modifies Repr
      ensures Valid() && count == old(count) + 1 && bytesLeft == length && forwardLeft == PACKET_HEADER
      ensures Received() == Parts(packetHeader, []) && Sent() == Parts([], []) && packets == old(Completed())
      ensures block.data[..] == old(block.data[..])
    {
      CompletedSlots();
      hide Slots, Slot, Idle, Completed;
      ghost var hd, bd := header.data[..], block.data[..];
      packets := Completed();
      block.last := BodyAt(count);
      block.first := block.last;
      count := count + 1;
      header.CopyIntoBuffer(packetHeader);
      bytesLeft := length;
      forwardLeft := PACKET_HEADER;
      SlotsKept(hd, header.data[..], header.padding, headerSize, bd, block.data[..], block.padding, packets);
    }

    /** InputBuffer::readFromSocket: the header part is filled first, then the payload. */
    method ReadFromSocket(src: Source, bytesToRead: nat) returns (ret: int)
      requires Apart() && src !in Repr && count > 0
      requires header.last <= HeadAt(count - 1) + headerSize <= header.data.Length
      requires bytesToRead <= HeadAt(count - 1) + headerSize - header.last + (block.data.Length - block.last)
      modifies header`last, block`last, header.data, block.data, src
      ensures Apart() && ret <= bytesToRead && header.last <= HeadAt(count - 1) + headerSize
      ensures header.first == old(header.first) && block.first == old(block.first)
      ensures old(header.last) <= header.last && old(block.last) <= block.last
      ensures header.last - old(header.last) + (block.last - old(block.last)) == if ret > 0 then ret else 0
      ensures block.last > old(block.last) ==> header.last == HeadAt(count - 1) + headerSize
      ensures header.data[..old(header.last)] == old(header.data[..header.last])
      ensures block.data[..old(block.last)] == old(block.data[..block.last])
      ensures src.taken == old(src.taken) + (header.data[old(header.last)..header.last] + block.data[old(block.last)..block.last])
      ensures ret < bytesToRead && ret == 0 ==> src.misses > old(src.misses)
      ensures ret < 0 ==> src.misses > old(src.misses)
    {
      var bytesRead := 0;
      var target := HeadAt(count - 1) + headerSize;
      if header.last < target {
        var want := if target - header.last < bytesToRead then target - header.last else bytesToRead;
        ret := header.ReadFrom(src, want);
        if ret <= 0 { return; }
        bytesRead := ret;
      }
      if header.last == target && bytesRead < bytesToRead {
        ret := block.ReadFrom(src, bytesToRead - bytesRead);
        if ret <= 0 { return if bytesRead > 0 then bytesRead else ret; }
        bytesRead := bytesRead + ret;
      }
      ret := bytesRead;
    }

    /** readData: the bytes received are appended to the packet and to what is to be sent. */
    method ReadData(src: Source) returns (ok: bool, ghost more: Parts)
      requires Valid() && src !in Repr
      modifies `bytesLeft, `forwardLeft, header`last, block`last, header.data, block.data, src
      ensures Valid() && Sent() == old(Sent()) && src.taken == old(src.taken) + more.Joined()
      ensures Received() == Grown(old(Received()), more) && Received().Joined() == old(Received()).Joined() + more.Joined()
      ensures |more.Joined()| + bytesLeft == old(bytesLeft) && ok == (old(bytesLeft) == 0 || more.Joined() != [])
      ensures !ok ==> src.misses > old(src.misses)
      ensures block.data[..BodyAt(count - 1)] == old(block.data[..BodyAt(count - 1)])
    {
      hide Kept;
      ghost var was, h, b, hd, bd := Received(), header.last, block.last, header.data[..], block.data[..];
      var n := ReadCounted(src);
      ok := n > 0;
      SliceGrows(hd, header.data[..], HeadAt(count - 1), header.first, h, header.last);
      SliceGrows(bd, block.data[..], BodyAt(count - 1), block.first, b, block.last);
      more := Parts(header.data[h..header.last], block.data[b..block.last]);
      GrownJoined(was, more);
    }

    method ReadCounted(src: Source) returns (n: int)
      requires Valid() && src !in Repr
      modifies `bytesLeft, `forwardLeft, header`last, block`last, header.data, block.data, src
      ensures Valid() && header.first == old(header.first) && block.first == old(block.first)
      ensures old(header.last) <= header.last && old(block.last) <= block.last
      ensures header.last - old(header.last) + (block.last - old(block.last)) == old(bytesLeft) - bytesLeft
      ensures n > 0 <==> old(bytesLeft) == 0 || bytesLeft < old(bytesLeft)
      ensures header.last > old(header.last) ==> old(block.last) == BodyAt(count - 1)
      ensures header.data[..old(header.last)] == old(header.data[..header.last])
      ensures block.data[..old(block.last)] == old(block.data[..block.last])
      ensures src.taken == old(src.taken) + (header.data[old(header.last)..header.last] + block.data[old(block.last)..block.last])
      ensures n <= 0 && old(bytesLeft) > 0 ==> src.misses > old(src.misses)
    {
      hide Slots, Slot;
      ghost var hd, bd := header.data[..], block.data[..];
      ghost var h, b := header.last, block.last;
      n := 1;
      if bytesLeft == 0 { return; }
      n := ReadFromSocket(src, bytesLeft);
      if n > 0 {
        bytesLeft := bytesLeft - n;
        forwardLeft := forwardLeft + n;
      }
      Shorter(hd, header.data[..], HeadAt(count - 1), h);
      Shorter(bd, block.data[..], BodyAt(count - 1), b);
      SlotsKept(hd, header.data[..], header.padding, headerSize, bd, block.data[..], block.padding, packets);
    }

    /** InputBuffer::writeToSocket: the payload follows once the header part is flushed. */
    method WriteToSocket(fd: Descriptor, bytesToWrite: nat) returns (ret: int)
      requires Apart() && fd !in Repr && bytesToWrite == header.BytesInABuffer() + block.BytesInABuffer()
      modifies header`first, block`first, fd
      ensures Apart() && ret <= bytesToWrite && old(header.first) <= header.first && old(block.first) <= block.first
      ensures header.first - old(header.first) + (block.first - old(block.first)) == if ret > 0 then ret else 0
      ensures block.first > old(block.first) ==> header.first == header.last
      ensures fd.accepted == old(fd.accepted) + (header.data[old(header.first)..header.first] + block.data[old(block.first)..block.first])
      ensures ret <= 0 && bytesToWrite > 0 ==> fd.refusals > old(fd.refusals)
    {
      var bytesWritten := 0;
      if header.BytesInABuffer() > 0 {
        ret := header.WriteTo(fd, header.BytesInABuffer());
        if ret <= 0 { return; }
        bytesWritten := ret;
      }
      if header.BytesInABuffer() == 0 {
        ret := block.WriteTo(fd, bytesToWrite - bytesWritten);
        if ret <= 0 { return if bytesWritten > 0 then bytesWritten else ret; }
        bytesWritten := bytesWritten + ret;
      }
      ret := bytesWritten;
    }

    method WriteCounted(fd: Descriptor) returns (n: int)
      requires Valid() && fd !in Repr
      modifies `forwardLeft, header`first, block`first, fd
      ensures Valid() && old(header.first) <= header.first && old(block.first) <= block.first
      ensures header.first - old(header.first) + (block.first - old(block.first)) == old(forwardLeft) - forwardLeft
      ensures header.first > old(header.first) ==> old(block.first) == BodyAt(count - 1)
      ensures fd.accepted == old(fd.accepted) + (header.data[old(header.first)..header.first] + block.data[old(block.first)..block.first])
      ensures forwardLeft == old(forwardLeft) > 0 ==> fd.refusals > old(fd.refusals)
    {
      n := WriteToSocket(fd, forwardLeft);
      if n > 0 { forwardLeft := forwardLeft - n; }
    }

    /** writePacket: what the next server accepts is appended to what was sent. */
    method WritePacket(fd: Descriptor) returns (done: bool, ghost more: Parts)
      requires Valid() && fd !in Repr
      modifies `forwardLeft, header`first, block`first, fd
      ensures Valid() && Received() == old(Received()) && fd.accepted == old(fd.accepted) + more.Joined()
      ensures Sent() == Grown(old(Sent()), more) && Sent().Joined() == old(Sent()).Joined() + more.Joined()
      ensures |more.Joined()| + forwardLeft == old(forwardLeft) && done == (forwardLeft == 0)
      ensures !done && more.Joined() == [] ==> fd.refusals > old(fd.refusals)
    {
      hide Kept, Slot;
      ghost var was, h, b := Sent(), header.first, block.first;
      if forwardLeft > 0 { var _ := WriteCounted(fd); }
      done := forwardLeft == 0;
      SliceGrows(header.data[..], header.data[..], HeadAt(count - 1), h, h, header.first);
      SliceGrows(block.data[..], block.data[..], BodyAt(count - 1), b, b, block.first);
      more := Parts(header.data[h..header.first], block.data[b..block.first]);
      GrownJoined(was, more);
    }

    /** What was sent is always a prefix of what was received, and the forward counter says
        how much is missing. */
    lemma SentPrefix()
      requires Valid()
      ensures Sent().Joined() <= Received().Joined() && forwardLeft == |Received().Joined()| - |Sent().Joined()|
    {
      SliceGrows(header.data[..], header.data[..], HeadAt(count - 1), HeadAt(count - 1), header.first, header.last);
      SliceGrows(block.data[..], block.data[..], BodyAt(count - 1), BodyAt(count - 1), block.first, block.last);
      SentIsPrefix(Received(), Sent());
    }

    /** The write i received so far. */
    ghost function Packet(i: nat): Parts
      requires Valid() && i < count
      reads this, Repr, header, block
    {
      if i == count - 1 then Received() else packets[i]
    }

    /** The payload of every write lies at its own slot of the block buffer. */
    lemma PayloadInSlot(i: nat)
      requires Valid() && i < count && |Packet(i).Joined()| > headerSize
      ensures var payload := Packet(i).Joined()[headerSize..];
              |payload| <= BLOCK_SIZE && BodyAt(i) + |payload| <= block.data.Length && payload == block.data[BodyAt(i)..BodyAt(i) + |payload|]
    {
      assert |Packet(i).head| == headerSize;
    }

    /** forward: the packet is handed on for processing exactly when it was received and sent
        on completely. */
    method Forward(src: Source, fd: Descriptor) returns (process: bool, ghost got: Parts, ghost put: Parts)
      requires Valid() && src !in Repr && fd !in Repr
      modifies Repr, src, fd
      ensures Valid() && count == old(count)
      ensures Received() == Grown(old(Received()), got) && src.taken == old(src.taken) + got.Joined()
      ensures Sent() == Grown(old(Sent()), put) && fd.accepted == old(fd.accepted) + put.Joined()
      ensures |got.Joined()| + bytesLeft == old(bytesLeft)
      ensures packets == old(packets)
      ensures process ==> bytesLeft == 0 && Sent().Joined() == Received().Joined()
      ensures process && |Received().Joined()| >= headerSize ==> Idle()
      ensures bytesLeft == 0 && forwardLeft == 0 && (old(bytesLeft) == 0 || got.Joined() != []) ==> process
      ensures old(bytesLeft) > 0 && got.Joined() == [] ==> src.misses > old(src.misses)
      ensures !process && put.Joined() == [] ==> src.misses > old(src.misses) || fd.refusals > old(fd.refusals)
    {
      hide Placed, Received, Sent, Kept, Idle;
      var ok;
      SentPrefix();
      ok, got := ReadData(src);
      put := Parts([], []);
      ghost var was := Sent();
      assert Grown(was, put) == was && fd.accepted + put.Joined() == fd.accepted;
      if !ok { return false, got, put; }
      SentPrefix();
      var done;
      done, put := WritePacket(fd);
      SentPrefix();
      process := bytesLeft == 0 && forwardLeft == 0;
      if process && |Received().Joined()| >= headerSize { CompleteIsIdle(); }
    }
  }

  /** Where slot i of buffers of some size begins. */
  function Slot(i: nat, size: nat): nat { i * size }

  /** Packet i has its header at hp + Slot(i, hs) of one buffer and its payload at block i of the
      other. */
  ghost predicate Slots(hd: seq<u8>, hp: nat, hs: nat, bd: seq<u8>, bp: nat, packets: seq<Parts>) {
    forall i :: 0 <= i < |packets| ==>
      && |packets[i].head| == hs && InSlot(hd, hp + Slot(i, hs), hs, packets[i].head)
      && InSlot(bd, bp + Slot(i, BLOCK_SIZE), BLOCK_SIZE, packets[i].body)
  }

  ghost predicate InSlot(data: seq<u8>, at: nat, room: nat, bytes: seq<u8>) {
    |bytes| <= room && at + |bytes| <= |data| && data[at..at + |bytes|] == bytes
  }

  lemma SlotsSnoc(hd: seq<u8>, hp: nat, hs: nat, bd: seq<u8>, bp: nat, packets: seq<Parts>, p: Parts)
    requires Slots(hd, hp, hs, bd, bp, packets)
    requires InSlot(hd, hp + Slot(|packets|, hs), hs, p.head) && InSlot(bd, bp + Slot(|packets|, BLOCK_SIZE), BLOCK_SIZE, p.body) && |p.head| == hs
    ensures Slots(hd, hp, hs, bd, bp, packets + [p])
  {}

  lemma InSlotKept(was: seq<u8>, now: seq<u8>, at: nat, room: nat, bytes: seq<u8>, end: nat)
    requires InSlot(was, at, room, bytes) && at + room <= end <= |was| == |now| && now[..end] == was[..end]
    ensures InSlot(now, at, room, bytes)
  {
    assert forall i :: 0 <= i < end ==> now[i] == now[..end][i] == was[..end][i] == was[i];
  }

  lemma Before(i: nat, n: nat, size: nat)
    requires i < n
    ensures Slot(i, size) + size <= Slot(n, size)
  {
    if i + 1 < n { Before(i, n - 1, size); }
  }

  /** What lies in front of the current packet stays there. */
  lemma SlotsKept(hd: seq<u8>, hd': seq<u8>, hp: nat, hs: nat, bd: seq<u8>, bd': seq<u8>, bp: nat, packets: seq<Parts>)
    requires Slots(hd, hp, hs, bd, bp, packets)
    requires hp + Slot(|packets|, hs) <= |hd| == |hd'| && hd'[..hp + Slot(|packets|, hs)] == hd[..hp + Slot(|packets|, hs)]
    requires bp + Slot(|packets|, BLOCK_SIZE) <= |bd| == |bd'| && bd'[..bp + Slot(|packets|, BLOCK_SIZE)] == bd[..bp + Slot(|packets|, BLOCK_SIZE)]
    ensures Slots(hd', hp, hs, bd', bp, packets)
  {
    hide InSlot, Slot;
    forall i | 0 <= i < |packets|
      ensures InSlot(hd', hp + Slot(i, hs), hs, packets[i].head) && InSlot(bd', bp + Slot(i, BLOCK_SIZE), BLOCK_SIZE, packets[i].body)
    {
      Before(i, |packets|, hs);
      Before(i, |packets|, BLOCK_SIZE);
      InSlotKept(hd, hd', hp + Slot(i, hs), hs, packets[i].head, hp + Slot(|packets|, hs));
      InSlotKept(bd, bd', bp + Slot(i, BLOCK_SIZE), BLOCK_SIZE, packets[i].body, bp + Slot(|packets|, BLOCK_SIZE));
    }
  }

  lemma Shorter(was: seq<u8>, now: seq<u8>, a: nat, b: nat)
    requires a <= b <= |was| == |now| && now[..b] == was[..b]
    ensures now[..a] == was[..a]
  {
    assert now[..a] == now[..b][..a] && was[..a] == was[..b][..a];
  }

  /** What was in the buffer stays there. */
  lemma SliceGrows(was: seq<u8>, now: seq<u8>, a: nat, f: nat, b: nat, c: nat)
    requires a <= f <= b <= c <= |now| && |was| == |now| && now[..b] == was[..b]
    ensures now[a..c] == was[a..b] + now[b..c] && now[a..f] == was[a..f] && now[..a] == was[..a]
  {
    assert forall i :: 0 <= i < b ==> now[i] == now[..b][i] == was[..b][i] == was[i];
  }

  function Grown(was: Parts, more: Parts): Parts { Parts(was.head + more.head, was.body + more.body) }

  /** Nothing is added to the head once the body has begun. */
  lemma GrownJoined(was: Parts, more: Parts)
    requires was.body == [] || more.head == []
    ensures Grown(was, more).Joined() == was.Joined() + more.Joined()
  {}
}
