/**
 Packet I/O of the HarmonyOS TUN device (native/go_bridge/harmony_tun.go): reads and writes that must
 keep packet boundaries over a descriptor that interrupts, stops short and fails, the traffic counters,
 and the observer that recognises DNS messages in IPv4 packets.
 */
module HarmonyTun {
  import opened Wrappers

  type Packet = seq<byte>

  const TWO64: nat := 0x1_0000_0000_0000_0000

  datatype Errno = Again | WouldBlock | Interrupted | Other(reason: string)
  datatype TunError = InvalidBuffer | Device(errno: Errno) | NoProgress | ShortWrite

  predicate Retriable(errno: Errno) {
    errno == Again || errno == WouldBlock || errno == Interrupted
  }

  predicate RetriableError(error: TunError) {
    error.Device? && Retriable(error.errno)
  }

  // ------------------------------------------------------------------ recognising DNS messages

  /** A number of two bytes, most significant first. */
  function Word(p: Packet, at: nat): nat
    requires at + 1 < |p|
  {
    p[at] as nat * 256 + p[at + 1] as nat
  }

  /** The header length field counts words of four bytes (section 3.1 of RFC 791). */
  function HeaderLength(p: Packet): nat
    requires |p| > 0
  {
    (p[0] % 16) as nat * 4
  }

  /** An IPv4 packet that carries UDP and is long enough for a DNS header behind it. */
  predicate CarriesDnsHeader(p: Packet) {
    && |p| >= 20 && p[0] / 16 == 4 && p[9] == 17
    && HeaderLength(p) >= 20 && |p| >= HeaderLength(p) + 8 + 12
  }

  /** The QR bit of the DNS header (section 4.1.1 of RFC 1035). */
  predicate IsResponse(p: Packet)
    requires CarriesDnsHeader(p)
  {
    p[HeaderLength(p) + 8 + 2] >= 128
  }

  predicate DnsQuery(p: Packet) {
    CarriesDnsHeader(p) && Word(p, HeaderLength(p) + 2) == 53 && !IsResponse(p)
  }

  predicate DnsResponse(p: Packet) {
    CarriesDnsHeader(p) && Word(p, HeaderLength(p)) == 53 && IsResponse(p)
  }

  predicate DnsAnswer(p: Packet) {
    DnsResponse(p) && Word(p, HeaderLength(p) + 8 + 6) > 0
  }

  datatype DnsKind = Query | Response | Answer

  predicate Is(p: Packet, kind: DnsKind) {
    match kind
    case Query => DnsQuery(p)
    case Response => DnsResponse(p)
    case Answer => DnsAnswer(p)
  }

  // ------------------------------------------------------------------ sums over packets

  function Count(packets: seq<Packet>, kind: DnsKind): nat {
    if packets == [] then 0
    else Count(packets[..|packets| - 1], kind) + if Is(packets[|packets| - 1], kind) then 1 else 0
  }

  function Bytes(packets: seq<Packet>): nat {
    if packets == [] then 0 else Bytes(packets[..|packets| - 1]) + |packets[|packets| - 1]|
  }

  /** What 64 bits keep of a number. */
  function Wrap(n: nat): (r: nat)
    ensures r < TWO64
  {
    if n < TWO64 then n else Wrap(n - TWO64)
  }

  lemma {:induction false} WrapIsModulo(n: nat)
    ensures Wrap(n) == n % TWO64
  {
    if n >= TWO64 {
      WrapIsModulo(n - TWO64);
    }
  }

  /** One more, on 64 bits. */
  function Next(n: nat): nat {
    if n + 1 == TWO64 then 0 else n + 1
  }

  /** Counters of 64 bits that have seen a series of packets. */
  datatype Tally = Tally(packets: nat, bytes: nat, queries: nat, responses: nat, answers: nat)

  function After(t: Tally, p: Packet): Tally {
    Tally(Next(t.packets), Wrap(t.bytes + |p|),
          if Is(p, Query) then Next(t.queries) else t.queries,
          if Is(p, Response) then Next(t.responses) else t.responses,
          if Is(p, Answer) then Next(t.answers) else t.answers)
  }

  function TallyOf(packets: seq<Packet>): Tally {
    if packets == [] then Tally(0, 0, 0, 0, 0)
    else After(TallyOf(packets[..|packets| - 1]), packets[|packets| - 1])
  }

  lemma TallyGrows(packets: seq<Packet>, p: Packet)
    ensures TallyOf(packets + [p]) == After(TallyOf(packets), p)
  {
    assert (packets + [p])[..|packets|] == packets;
  }

  lemma {:induction false} WrapAdds(n: nat, k: nat)
    ensures Wrap(Wrap(n) + k) == Wrap(n + k) && Next(Wrap(n)) == Wrap(n + 1)
  {
    if n >= TWO64 {
      WrapAdds(n - TWO64, k);
    }
  }

  /** The counters are sums over the packets, modulo 2^64. */
  lemma {:induction false} TallyIsSum(packets: seq<Packet>)
    ensures TallyOf(packets) ==
            Tally(Wrap(|packets|), Wrap(Bytes(packets)),
                  Wrap(Count(packets, Query)), Wrap(Count(packets, Response)), Wrap(Count(packets, Answer)))
  {
    if packets != [] {
      var before := packets[..|packets| - 1];
      TallyIsSum(before);
      WrapAdds(|before|, 1);
      WrapAdds(Bytes(before), |packets[|packets| - 1]|);
      WrapAdds(Count(before, Query), 1);
      WrapAdds(Count(before, Response), 1);
      WrapAdds(Count(before, Answer), 1);
    }
  }

  /** What is written of a buffer: everything from the offset on. */
  function Payload(buf: Packet, offset: int): Packet {
    if 0 <= offset <= |buf| then buf[offset..] else []
  }

  /** The packets of the first k buffers, and their bytes in a row. */
  function Payloads(bufs: seq<Packet>, offset: int, k: nat): seq<Packet>
    requires k <= |bufs|
  {
    if k == 0 then [] else Payloads(bufs, offset, k - 1) + [Payload(bufs[k - 1], offset)]
  }

  function Wire(bufs: seq<Packet>, offset: int, k: nat): Packet
    requires k <= |bufs|
  {
    if k == 0 then [] else Wire(bufs, offset, k - 1) + Payload(bufs[k - 1], offset)
  }

  lemma Append<T>(a: seq<T>, b: seq<T>, c: seq<T>)
    ensures a + b + c == a + (b + c)
  {
  }

  // ------------------------------------------------------------------ the descriptor

  /** How one call on the descriptor ends: how much it takes or delivers, and with what error. */
  datatype WriteOutcome = WriteOutcome(accepts: nat, error: Option<Errno>)
  datatype ReadOutcome = ReadOutcome(data: Packet, error: Option<Errno>)

  /** What the next read delivers into room for `room` bytes: the packet, cut off at the end of the
      buffer, and the error that goes with it; nothing and a final error once the script is over. */
  predicate Delivers(script: seq<ReadOutcome>, room: nat, data: Packet, error: Option<Errno>) {
    if script == [] then data == [] && error == Some(Other("closed"))
    else
      && data == (if |script[0].data| < room then script[0].data else script[0].data[..room])
      && error == script[0].error
  }

  function Rest<T>(script: seq<T>): seq<T> {
    if script == [] then [] else script[1..]
  }

  predicate Transient(outcome: ReadOutcome) {
    outcome.error.Some? && Retriable(outcome.error.value)
  }

  /** The script from the first outcome on that is not a transient interruption. */
  function Awaited(script: seq<ReadOutcome>): seq<ReadOutcome> {
    if script != [] && Transient(script[0]) then Awaited(script[1..]) else script
  }

  /** After this outcome of a write the rest of the packet is tried. */
  predicate GoesOn(outcome: WriteOutcome) {
    if outcome.error.Some? then Retriable(outcome.error.value) else outcome.accepts > 0
  }

  /** The calls that one packet takes: the first after which writing cannot go on decides the error. */
  predicate Stops(script: seq<WriteOutcome>, rest: seq<WriteOutcome>, error: Option<TunError>) {
    && |rest| <= |script| && rest == script[|script| - |rest|..]
    && var calls := |script| - |rest|;
       match error
       case None => forall i :: 0 <= i < calls ==> GoesOn(script[i])
       case Some(NoProgress) =>
         && calls > 0 && script[calls - 1] == WriteOutcome(0, None)
         && forall i :: 0 <= i < calls - 1 ==> GoesOn(script[i])
       case Some(Device(errno)) =>
         if calls > 0 && script[calls - 1].error == Some(errno)
         then !Retriable(errno) && forall i :: 0 <= i < calls - 1 ==> GoesOn(script[i])
         else rest == [] && errno == Other("closed") && forall i :: 0 <= i < calls ==> GoesOn(script[i])
       case _ => false
  }

  /** The VPN descriptor follows any finite script and fails for good after it. */
  class Descriptor {
    ghost var received: Packet
    var writes: seq<WriteOutcome>
    var incoming: seq<ReadOutcome>

    constructor (writes: seq<WriteOutcome>, incoming: seq<ReadOutcome>)
      ensures this.writes == writes && this.incoming == incoming && received == []
    {
      this.writes, this.incoming := writes, incoming;
      received := [];
    }

    method Write(p: Packet) returns (n: nat, error: Option<Errno>)
      modifies this`writes, this`received
      ensures n <= |p| && received == old(received) + p[..n]
      ensures if old(writes) == [] then n == 0 && error == Some(Other("closed")) && writes == []
              else
                && n == (if old(writes)[0].accepts < |p| then old(writes)[0].accepts else |p|)
                && error == old(writes)[0].error && writes == old(writes)[1..]
    {
      if |writes| == 0 {
        return 0, Some(Other("closed"));
      }
      n := if writes[0].accepts < |p| then writes[0].accepts else |p|;
      error := writes[0].error;
      writes := writes[1..];
      received := received + p[..n];
    }

    method Read(buffer: array<byte>, offset: nat) returns (n: nat, error: Option<Errno>)
      requires offset <= buffer.Length
      modifies this`incoming, buffer
      ensures offset + n <= buffer.Length && buffer[..offset] == old(buffer[..offset])
      ensures Delivers(old(incoming), buffer.Length - offset, buffer[offset..offset + n], error)
      ensures incoming == Rest(old(incoming))
    {
      if |incoming| == 0 {
        return 0, Some(Other("closed"));
      }
      var data := incoming[0].data;
      error := incoming[0].error;
      incoming := incoming[1..];
      n := if |data| < buffer.Length - offset then |data| else buffer.Length - offset;
      forall i | 0 <= i < n {
        buffer[offset + i] := data[i];
      }
      assert buffer[offset..offset + n] == data[..n];
    }
  }

  // ------------------------------------------------------------------ the device

  class HarmonyTunDevice {
    const file: Descriptor
    var readCount: nat
    var writeCount: nat
    var readByteCount: nat
    var writeByteCount: nat
    var readErrorCount: nat
    var writeErrorCount: nat
    var dnsQueryCount: nat
    var dnsResponseCount: nat
    var dnsAnswerCount: nat

    /** The packets that came through whole, and the errors that were not transient. */
    ghost var packetsRead: seq<Packet>
    ghost var packetsWritten: seq<Packet>
    ghost var readErrors: nat
    ghost var writeErrors: nat

    static predicate Shows(t: Tally, packets: nat, bytes: nat) {
      t.packets == packets && t.bytes == bytes
    }

    ghost predicate ReadsCounted()
      reads this
    {
      && Shows(TallyOf(packetsRead), readCount, readByteCount)
      && TallyOf(packetsRead).queries == dnsQueryCount && readErrorCount == Wrap(readErrors)
    }

    ghost predicate WritesCounted()
      reads this
    {
      && Shows(TallyOf(packetsWritten), writeCount, writeByteCount)
      && TallyOf(packetsWritten).responses == dnsResponseCount && TallyOf(packetsWritten).answers == dnsAnswerCount
      && writeErrorCount == Wrap(writeErrors)
    }

    /** Every counter is that of the packets that came through whole. */
    ghost predicate Valid()
      reads this
    {
      ReadsCounted() && WritesCounted()
    }

    constructor (file: Descriptor)
      ensures Valid() && this.file == file && packetsRead == [] && packetsWritten == []
      ensures readErrors == 0 && writeErrors == 0
    {
      this.file := file;
      readCount, writeCount, readByteCount, writeByteCount, readErrorCount, writeErrorCount := 0, 0, 0, 0, 0, 0;
      dnsQueryCount, dnsResponseCount, dnsAnswerCount := 0, 0, 0;
      packetsRead, packetsWritten, readErrors, writeErrors := [], [], 0, 0;
    }

    /** Whatever the packet, no byte outside it is looked at. */
    method ObserveDNSPacket(packet: Packet, fromSystem: bool)
      modifies this`dnsQueryCount, this`dnsResponseCount, this`dnsAnswerCount
      ensures dnsQueryCount == if fromSystem && DnsQuery(packet) then Next(old(dnsQueryCount)) else old(dnsQueryCount)
      ensures dnsResponseCount ==
              if !fromSystem && DnsResponse(packet) then Next(old(dnsResponseCount)) else old(dnsResponseCount)
      ensures dnsAnswerCount ==
              if !fromSystem && DnsAnswer(packet) then Next(old(dnsAnswerCount)) else old(dnsAnswerCount)
    {
      if |packet| < 20 || packet[0] / 16 != 4 {
        return;
      }
      var headerLength := (packet[0] % 16) as nat * 4;
      if headerLength < 20 || |packet| < headerLength + 8 + 12 || packet[9] != 17 {
        return;
      }
      var udp := packet[headerLength..];
      var sourcePort := udp[0] as nat * 256 + udp[1] as nat;
      var destinationPort := udp[2] as nat * 256 + udp[3] as nat;
      var dns := udp[8..];
      var isResponse := dns[2] >= 128;
      if fromSystem && destinationPort == 53 && !isResponse {
        dnsQueryCount := Next(dnsQueryCount);
        return;
      }
      if !fromSystem && sourcePort == 53 && isResponse {
        dnsResponseCount := Next(dnsResponseCount);
        var answerCount := dns[6] as nat * 256 + dns[7] as nat;
        if answerCount > 0 {
          dnsAnswerCount := Next(dnsAnswerCount);
        }
      }
    }

    /** The descriptor gets the first `written` bytes, in order and once each; without an error it has
        the whole packet, and an error is never a transient one. */
    method WriteTunPacket(packet: Packet) returns (written: nat, error: Option<TunError>)
      modifies file`writes, file`received
      ensures written <= |packet| && file.received == old(file.received) + packet[..written]
      ensures error.None? ==> written == |packet|
      ensures error.Some? ==> error.value == NoProgress || (error.value.Device? && !Retriable(error.value.errno))
      ensures Stops(old(file.writes), file.writes, error)
    {
      written := 0;
      while written < |packet|
        invariant written <= |packet| && Stops(old(file.writes), file.writes, None)
        invariant file.received == old(file.received) + packet[..written]
        decreases |file.writes|
      {
        var n, failure := file.Write(packet[written..]);
        assert packet[..written] + packet[written..][..n] == packet[..written + n];
        if n > 0 {
          written := written + n;
        }
        if failure.Some? {
          if Retriable(failure.value) {
            continue;
          }
          return written, Some(Device(failure.value));
        }
        if n == 0 {
          return written, Some(NoProgress);
        }
      }
      return written, None;
    }

    /** What comes back is what the descriptor answers once its transient interruptions are over. */
    method ReadTunPacket(buffer: array<byte>, offset: nat) returns (n: nat, error: Option<Errno>)
      requires offset <= buffer.Length
      modifies file`incoming, buffer
      ensures offset + n <= buffer.Length && buffer[..offset] == old(buffer[..offset])
      ensures Delivers(Awaited(old(file.incoming)), buffer.Length - offset, buffer[offset..offset + n], error)
      ensures file.incoming == Rest(Awaited(old(file.incoming)))
      ensures error.Some? ==> !Retriable(error.value)
    {
      ghost var script := file.incoming;
      n, error := file.Read(buffer, offset);
      while error.Some? && Retriable(error.value)
        invariant offset + n <= buffer.Length && buffer[..offset] == old(buffer[..offset])
        invariant Delivers(script, buffer.Length - offset, buffer[offset..offset + n], error)
        invariant file.incoming == Rest(script) && Awaited(script) == Awaited(old(file.incoming))
        decreases |script|
      {
        script := file.incoming;
        n, error := file.Read(buffer, offset);
      }
    }

    /** One packet, or none; a packet that arrives together with an error still counts. */
    method Read(bufs: seq<array<byte>>, sizes: array<int>, offset: int)
      returns (packets: int, error: Option<TunError>)
      requires Valid()
      modifies this, file`incoming, sizes, set buffer | buffer in bufs
      ensures Valid() && packetsWritten == old(packetsWritten) && writeErrors == old(writeErrors)
      ensures var usable := |bufs| > 0 && sizes.Length > 0 && 0 <= offset < bufs[0].Length;
              var script := Awaited(old(file.incoming));
              && (packets == 1 <==> usable && script != [] && script[0].data != [])
              && (packets == 0 || packets == 1)
              && (packets == 1 ==>
                    && error.None? && 0 < sizes[0] <= bufs[0].Length - offset && sizes[0] <= |script[0].data|
                    && bufs[0][offset..offset + sizes[0]] == script[0].data[..sizes[0]]
                    && packetsRead == old(packetsRead) + [script[0].data[..sizes[0]]])
              && (packets == 0 ==> packetsRead == old(packetsRead))
              && (error == Some(InvalidBuffer) <==> !usable)
      ensures readErrors == old(readErrors) + if error.Some? && error.value != InvalidBuffer then 1 else 0
      ensures error.Some? ==> !RetriableError(error.value)
    {
      if |bufs| == 0 || sizes.Length == 0 || offset < 0 || offset >= bufs[0].Length {
        return 0, Some(InvalidBuffer);
      }
      var n, failure := ReadTunPacket(bufs[0], offset);
      if n > 0 {
        sizes[0] := n;
        var packet := bufs[0][offset..offset + n];
        CountRead(packet);
        return 1, None;
      }
      if failure.Some? && !Retriable(failure.value) {
        CountReadError();
      }
      return 0, if failure.Some? then Some(Device(failure.value)) else None;
    }

    method CountRead(packet: Packet)
      requires ReadsCounted()
      modifies this`readCount, this`readByteCount, this`dnsQueryCount, this`dnsResponseCount, this`dnsAnswerCount
      modifies this`packetsRead
      ensures ReadsCounted() && packetsRead == old(packetsRead) + [packet]
      ensures dnsResponseCount == old(dnsResponseCount) && dnsAnswerCount == old(dnsAnswerCount)
    {
      ghost var before := packetsRead;
      ghost var tally := TallyOf(before);
      readCount := Next(readCount);
      readByteCount := Wrap(readByteCount + |packet|);
      ObserveDNSPacket(packet, true);
      assert Shows(After(tally, packet), readCount, readByteCount);
      packetsRead := before + [packet];
      TallyGrows(before, packet);
    }

    method CountWrite(packet: Packet)
      requires WritesCounted()
      modifies this`writeCount, this`writeByteCount, this`dnsQueryCount, this`dnsResponseCount, this`dnsAnswerCount
      modifies this`packetsWritten
      ensures WritesCounted() && packetsWritten == old(packetsWritten) + [packet]
      ensures dnsQueryCount == old(dnsQueryCount)
    {
      ghost var before := packetsWritten;
      ghost var tally := TallyOf(before);
      writeCount := Next(writeCount);
      writeByteCount := Wrap(writeByteCount + |packet|);
      ObserveDNSPacket(packet, false);
      assert Shows(After(tally, packet), writeCount, writeByteCount);
      packetsWritten := before + [packet];
      TallyGrows(before, packet);
    }

    /** The packets of the buffers that were written whole, and after a failure of the descriptor `part`
        bytes of the next one.  A short write is never reported. */
    method Write(bufs: seq<Packet>, offset: int) returns (written: nat, error: Option<TunError>, ghost part: nat)
      requires Valid()
      modifies this, file`writes, file`received
      ensures Valid() && packetsRead == old(packetsRead) && readErrors == old(readErrors)
      ensures written <= |bufs| && (error.None? <==> written == |bufs|)
      ensures packetsWritten == old(packetsWritten) + Payloads(bufs, offset, written)
      ensures error.None? || error.value == InvalidBuffer ==>
                file.received == old(file.received) + Wire(bufs, offset, written) && writeErrors == old(writeErrors)
      ensures error.Some? && error.value != InvalidBuffer ==>
                && part <= |Payload(bufs[written], offset)|
                && file.received ==
                   old(file.received) + Wire(bufs, offset, written) + Payload(bufs[written], offset)[..part]
                && writeErrors == old(writeErrors) + 1
      ensures InRange(bufs, offset, written)
      ensures error == Some(InvalidBuffer) <==> written < |bufs| && !(0 <= offset <= |bufs[written]|)
      ensures error.Some? ==> error.value != ShortWrite && !RetriableError(error.value)
    {
      written, part, error := 0, 0, None;
      ghost var earlier, before := packetsWritten, file.received;
      while written < |bufs|
        invariant error.None? && Sent(bufs, offset, written, earlier, before)
        invariant Valid() && packetsRead == old(packetsRead)
        invariant readErrors == old(readErrors) && writeErrors == old(writeErrors)
        invariant InRange(bufs, offset, written)
      {
        if offset < 0 || offset > |bufs[written]| {
          error := Some(InvalidBuffer);
          return;
        }
        error, part := WriteNext(bufs, offset, written, earlier, before);
        if error.Some? {
          return;
        }
        written := written + 1;
      }
    }

    /** The offset lies within each of the first k buffers. */
    static predicate InRange(bufs: seq<Packet>, offset: int, k: nat) {
      k <= |bufs| && forall i :: 0 <= i < k ==> 0 <= offset <= |bufs[i]|
    }

    /** Since the call began, the first k payloads have been written, and counted as packets. */
    ghost predicate Sent(bufs: seq<Packet>, offset: int, k: nat, earlier: seq<Packet>, before: Packet)
      reads this`packetsWritten, file`received
    {
      && k <= |bufs| && packetsWritten == earlier + Payloads(bufs, offset, k)
      && file.received == before + Wire(bufs, offset, k)
    }

    method WriteNext(bufs: seq<Packet>, offset: int, k: nat, ghost earlier: seq<Packet>, ghost before: Packet)
      returns (error: Option<TunError>, ghost sent: nat)
      requires Valid() && Sent(bufs, offset, k, earlier, before) && k < |bufs| && 0 <= offset <= |bufs[k]|
      modifies this, file`writes, file`received
      ensures Valid() && packetsRead == old(packetsRead) && readErrors == old(readErrors)
      ensures error.None? ==> Sent(bufs, offset, k + 1, earlier, before) && writeErrors == old(writeErrors)
      ensures error.Some? ==>
                && sent <= |Payload(bufs[k], offset)|
                && file.received == before + Wire(bufs, offset, k) + Payload(bufs[k], offset)[..sent]
                && packetsWritten == old(packetsWritten) && writeErrors == old(writeErrors) + 1
                && error.value != ShortWrite && error.value != InvalidBuffer && !RetriableError(error.value)
    {
      ghost var packets, bytes := Payloads(bufs, offset, k), Wire(bufs, offset, k);
      var packet := bufs[k][offset..];
      error, sent := WriteOne(packet);
      Append(earlier, packets, [packet]);
      Append(before, bytes, packet);
    }

    method CountReadError()
      requires Valid()
      modifies this`readErrorCount, this`readErrors
      ensures Valid() && readErrors == old(readErrors) + 1
    {
      WrapAdds(readErrors, 0);
      readErrorCount := Next(readErrorCount);
      readErrors := readErrors + 1;
    }

    method CountWriteError()
      requires Valid()
      modifies this`writeErrorCount, this`writeErrors
      ensures Valid() && writeErrors == old(writeErrors) + 1
    {
      WrapAdds(writeErrors, 0);
      writeErrorCount := Next(writeErrorCount);
      writeErrors := writeErrors + 1;
    }

    /** One packet, its errors and its counters. */
    method WriteOne(packet: Packet) returns (error: Option<TunError>, ghost sent: nat)
      requires Valid()
      modifies this, file`writes, file`received
      ensures Valid() && packetsRead == old(packetsRead) && readErrors == old(readErrors)
      ensures sent <= |packet| && file.received == old(file.received) + packet[..sent]
      ensures error.None? ==> file.received == old(file.received) + packet
      ensures packetsWritten == old(packetsWritten) + if error.None? then [packet] else []
      ensures error.Some? ==> error.value != ShortWrite && error.value != InvalidBuffer && !RetriableError(error.value)
      ensures writeErrors == old(writeErrors) + if error.Some? then 1 else 0
    {
      var n, failure := WriteTunPacket(packet);
      error, sent := failure, n;
      if failure.Some? {
        if !RetriableError(failure.value) {
          CountWriteError();
        }
        return;
      }
      // The test for a short count that follows in the source never succeeds.
      assert n == |packet| && packet[..n] == packet;
      CountWrite(packet);
    }
  }
}
