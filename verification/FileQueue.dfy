/**
 The on-disk queue backend (pkg/queue/filequeue.go): an append-only log of length-prefixed
 records with a read cursor, proved to be the `FileStep` queue of module `Fifo`.

 Reads and writes of the log succeed; truncation is best effort and may leave stale bytes
 past the write offset.

 An event is encoded once, into a buffer that the queue reuses. A producer that waits for room keeps
 a slice of that buffer and writes it when it is woken, without encoding again: `OwnRecordIff` says
 when these are still the bytes of its event.
 */
module Wal {
  import opened Core
  import opened Codec
  import opened Fifo

  const HEADER: nat := 4

  /** One record: a big-endian length and the encoded event. */
  function Record(ev: Event): Bytes
    requires |Encode(ev)| < 0x1_0000_0000
  {
    Be32(|Encode(ev)|) + Encode(ev)
  }

  /** Events whose record length fits the 32-bit prefix and whose counters fit 64 bits. */
  ghost predicate Storable(ev: Event) {
    && |Encode(ev)| < 0x1_0000_0000
    && ev.txId < 0x1_0000_0000_0000_0000
    && ev.seqNo < 0x1_0000_0000_0000_0000
  }

  ghost predicate AllStorable(items: seq<Event>) {
    forall ev :: ev in items ==> Storable(ev)
  }

  /** The records of a sequence of events, one after the other. */
  ghost function Log(items: seq<Event>): Bytes
    requires AllStorable(items)
  {
    if items == [] then [] else assert items[0] in items; Record(items[0]) + Log(items[1..])
  }

  lemma {:induction false} LogAppend(items: seq<Event>, ev: Event)
    requires AllStorable(items) && Storable(ev)
    ensures AllStorable(items + [ev])
    ensures Log(items + [ev]) == Log(items) + Record(ev)
  {
    hide Encode;
    if items == [] {
      assert items + [ev] == [ev];
      assert Log([ev]) == Record(ev) + Log([]);
    } else {
      assert (items + [ev])[1..] == items[1..] + [ev];
      LogAppend(items[1..], ev);
    }
  }

  /** What the cursor sees at the front of a non-empty log. */
  lemma LogFront(items: seq<Event>, bytes: Bytes)
    requires items != [] && AllStorable(items) && bytes == Log(items)
    ensures var n := |Encode(items[0])|;
      && |bytes| >= HEADER + n
      && FromBe32(bytes[..HEADER]) == n
      && bytes[HEADER..HEADER + n] == Encode(items[0])
      && bytes[HEADER + n..] == Log(items[1..])
  {
    hide Encode;
    var n := |Encode(items[0])|;
    assert bytes == Be32(n) + Encode(items[0]) + Log(items[1..]);
    assert bytes[..HEADER] == Be32(n);
  }

  lemma SubSlice(s: Bytes, lo: nat, hi: nat, i: nat, j: nat)
    requires lo <= hi <= |s| && i <= j <= hi - lo
    ensures s[lo..hi][i..j] == s[lo + i..lo + j]
  {
    assert forall k :: 0 <= k < j - i ==> s[lo..hi][i..j][k] == s[lo + i..lo + j][k];
  }

  lemma StoredRecordDecodes(ev: Event)
    requires Storable(ev)
    ensures Decode(Encode(ev)) == Got(Norm(ev), [])
  {
    hide Encode, Decode;
    ShortRecordFits(ev);
    RoundTrip(ev, []);
    assert Encode(ev) + [] == Encode(ev);
  }

  // ----- The encode buffer -----------------------------------------------------------------------

  /** A slice of an encode buffer, from its start. */
  datatype Slice = Slice(mem: array<Byte>, len: nat)

  /** The size the encoder asks for. */
  function Estimate(ev: Event): nat {
    |Encode(ev)| + (if ev.conn.srcIp.V4? then 12 else 0) + (if ev.conn.dstIp.V4? then 12 else 0)
  }

  /** A buffer after another record was encoded into it. */
  function Overlay(mem: Bytes, enc: Bytes): Bytes
    requires |enc| <= |mem|
  {
    enc + mem[|enc|..]
  }

  /** The events encoded into an array of length `len` before one outgrows it, which moves the queue to a
      new array for good. */
  function IntoArray(len: nat, evs: seq<Event>): (r: seq<Event>)
    ensures r <= evs && forall i :: 0 <= i < |r| ==> |Encode(r[i])| <= len
  {
    if evs == [] || Estimate(evs[0]) > len then [] else [evs[0]] + IntoArray(len, evs[1..])
  }

  function Overlays(mem: Bytes, evs: seq<Event>): (r: Bytes)
    requires forall i :: 0 <= i < |evs| ==> |Encode(evs[i])| <= |mem|
    ensures |r| == |mem|
    decreases |evs|
  {
    if evs == [] then mem else Overlays(Overlay(mem, Encode(evs[0])), evs[1..])
  }

  /** No encoding continues another. */
  lemma PrefixFree(a: Event, b: Event, z: Bytes)
    requires Storable(a) && Storable(b) && Encode(a) + z == Encode(b)
    ensures z == []
  {
    hide Encode, Decode;
    ShortRecordFits(a);
    RoundTrip(a, z);
    StoredRecordDecodes(b);
  }

  lemma {:induction false} OverlaysLast(mem: Bytes, evs: seq<Event>)
    requires evs != [] && forall i :: 0 <= i < |evs| ==> |Encode(evs[i])| <= |mem|
    ensures Encode(evs[|evs| - 1]) <= Overlays(mem, evs)
    decreases |evs|
  {
    hide Encode;
    var next := Overlay(mem, Encode(evs[0]));
    if |evs| > 1 {
      OverlaysLast(next, evs[1..]);
    } else {
      assert evs[1..] == [];
    }
  }

  lemma PrefixesOf(x: Bytes, y: Bytes, m: Bytes)
    requires x <= m && y <= m
    ensures if |x| <= |y| then y == x + y[|x|..] else x == y + x[|y|..]
  {
    assert forall i :: 0 <= i < |x| ==> x[i] == m[i];
    assert forall i :: 0 <= i < |y| ==> y[i] == m[i];
  }

  /**
   Whose record is in the slice. A slice that held the encoding of `ev` holds it after `evs` were encoded
   into the same array if and only if there were none or the last of them has the same encoding.
   */
  lemma OwnRecordIff(mem: Bytes, ev: Event, evs: seq<Event>)
    requires Storable(ev) && forall i :: 0 <= i < |evs| ==> Storable(evs[i]) && |Encode(evs[i])| <= |mem|
    requires Encode(ev) <= mem
    ensures Encode(ev) <= Overlays(mem, evs) <==> evs == [] || Encode(evs[|evs| - 1]) == Encode(ev)
  {
    hide Encode, Storable, Overlays;
    if evs == [] {
      NoOverlay(mem);
    } else {
      var last := evs[|evs| - 1];
      var x, y, m := Encode(last), Encode(ev), Overlays(mem, evs);
      OverlaysLast(mem, evs);
      if y <= m {
        PrefixesOf(x, y, m);
        if |x| <= |y| { PrefixFree(last, ev, y[|x|..]); } else { PrefixFree(ev, last, x[|y|..]); }
        assert x + [] == x && y + [] == y;
      }
    }
  }

  lemma NoOverlay(mem: Bytes)
    ensures Overlays(mem, []) == mem
  {
  }

  class FileQueue {
    const capacity: nat
    const policy: Policy
    var file: Bytes        // the bytes on disk
    var open: bool         // the file handle has not been released
    var closed: bool
    var readOff: nat
    var writeOff: nat
    var count: nat
    var overflows: nat
    var encodeBuf: array<Byte>
    ghost var items: seq<Event>

    /** The bytes between the cursors are exactly the `count` buffered records, in order. */
    ghost predicate Valid()
      reads this
    {
      && capacity > 0
      && readOff <= writeOff <= |file|
      && AllStorable(items)
      && file[readOff..writeOff] == Log(items)
      && count == |items| <= capacity
      && (!open ==> closed && items == [])
    }

    ghost function Abs(): Queue
      reads this
    {
      Queue(policy, capacity, items, closed, overflows)
    }

    /** A drained queue starts again at the front of the file; once closed, it has given the file up. */
    ghost predicate Rewound()
      reads this
    {
      items == [] ==> if closed then !open else readOff == writeOff == 0
    }

    constructor (capacity: nat, policy: Policy)
      requires capacity > 0
      ensures Valid() && Abs() == Fresh(policy, capacity) && fresh(encodeBuf)
    {
      this.capacity, this.policy := capacity, policy;
      file, open, closed, readOff, writeOff, count, overflows := [], true, false, 0, 0, 0, 0;
      encodeBuf := new Byte[0];
      items := [];
    }

    /** Encodes into the buffer, or into a new one if it is too small. */
    method EncodeInto(ev: Event) returns (payload: Slice)
      modifies this`encodeBuf, encodeBuf
      ensures payload == Slice(encodeBuf, |Encode(ev)|) && payload.len <= encodeBuf.Length
      ensures encodeBuf[..payload.len] == Encode(ev)
      ensures if Estimate(ev) <= old(encodeBuf.Length)
              then encodeBuf == old(encodeBuf) && encodeBuf[..] == Overlay(old(encodeBuf[..]), Encode(ev))
              else fresh(encodeBuf) && encodeBuf.Length == Estimate(ev)
      ensures encodeBuf != old(encodeBuf) ==> old(encodeBuf)[..] == old(encodeBuf[..])
    {
      hide Encode;
      var size := EstimateEventSize(ev);
      if encodeBuf.Length < size { encodeBuf := new Byte[size]; }
      var enc := EncodeBinary(ev);
      ghost var was := encodeBuf[..];
      for i := 0 to |enc|
        modifies encodeBuf
        invariant encodeBuf[..i] == enc[..i] && encodeBuf[i..] == was[i..]
      {
        encodeBuf[i] := enc[i];
        assert encodeBuf[..i + 1] == enc[..i + 1];
        assert was[i + 1..] == was[i..][1..] && encodeBuf[i + 1..] == was[i + 1..];
      }
      assert enc[..|enc|] == enc;
      assert encodeBuf[..] == encodeBuf[..|enc|] + encodeBuf[|enc|..];
      payload := Slice(encodeBuf, |enc|);
    }

    /** One write of header and payload at the write offset. */
    method WriteRecord(payload: Bytes)
      requires readOff <= writeOff <= |file| && |payload| < 0x1_0000_0000
      modifies this`file, this`writeOff
      ensures writeOff == old(writeOff) + HEADER + |payload| <= |file|
      ensures file[readOff..writeOff] == old(file[readOff..writeOff]) + (Be32(|payload|) + payload)
    {
      hide Encode;
      var need := HEADER + |payload|;
      var bytes := Be32(|payload|) + payload;
      file := file[..writeOff] + bytes + (if |file| > writeOff + need then file[writeOff + need..] else []);
      writeOff := writeOff + need;
      assert file[..writeOff] == old(file[..writeOff]) + bytes;
      assert file[readOff..writeOff] == file[..writeOff][readOff..];
    }

    /** The length prefix at the read cursor. */
    method ReadLen() returns (n: nat)
      requires Valid() && count > 0
      ensures n == |Encode(items[0])|
      ensures readOff + HEADER + n <= writeOff
      ensures file[readOff + HEADER..readOff + HEADER + n] == Encode(items[0])
      ensures file[readOff + HEADER + n..writeOff] == Log(items[1..])
    {
      hide Encode;
      ghost var bytes := file[readOff..writeOff];
      LogFront(items, bytes);
      SubSlice(file, readOff, writeOff, 0, HEADER);
      n := FromBe32(file[readOff..readOff + HEADER]);
      SubSlice(file, readOff, writeOff, HEADER, HEADER + n);
      SubSlice(file, readOff, writeOff, HEADER + n, |bytes|);
    }

    /** Moves the cursor past the front record. */
    method Advance(n: nat)
      requires Valid() && count > 0 && n == |Encode(items[0])|
      requires readOff + HEADER + n <= writeOff
      requires file[readOff + HEADER + n..writeOff] == Log(items[1..])
      modifies this`readOff, this`count, this`items
      ensures Valid() && items == old(items)[1..]
    {
      hide Encode;
      readOff := readOff + HEADER + n;
      count := count - 1;
      items := items[1..];
    }

    /** Once drained: rewind and truncate, or release the file if the queue is closed. */
    method CompactIfDrained()
      requires Valid()
      modifies this`readOff, this`writeOff, this`file, this`open
      ensures Valid() && Rewound()
      ensures items != [] ==> readOff == old(readOff) && writeOff == old(writeOff)
      ensures items != [] ==> file == old(file) && open == old(open)
    {
      hide Encode;
      if count != 0 { return; }
      if closed {
        open := false;
        return;
      }
      readOff := 0;
      writeOff := 0;
      if * { file := []; }
    }

    method DropOldest()
      requires Valid() && count > 0
      modifies this`readOff, this`writeOff, this`file, this`open, this`count, this`items
      ensures Valid() && items == old(items)[1..]
      ensures !closed ==> open == old(open)
    {
      hide Encode;
      var n := ReadLen();
      Advance(n);
      CompactIfDrained();
    }

    /** Writes a slice that holds the encoding of `ev`. */
    method Append(payload: Slice, ghost ev: Event)
      requires Valid() && Storable(ev) && count < capacity && open
      requires payload.len <= payload.mem.Length && payload.mem[..payload.len] == Encode(ev)
      modifies this`file, this`writeOff, this`count, this`items
      ensures Valid() && items == old(items) + [ev]
    {
      hide Encode;
      WriteRecord(payload.mem[..payload.len]);
      LogAppend(items, ev);
      items := items + [ev];
      count := count + 1;
    }

    /** The section of a call up to its return or its first wait. A caller that must wait keeps the slice. */
    method Enqueue(ev: Event) returns (reply: Reply, payload: Slice)
      requires Valid() && Storable(ev)
      modifies this, encodeBuf
      ensures Valid() && (Abs(), reply) == FileStep(old(Abs()), Fifo.Enqueue(ev))
      ensures encodeBuf == old(encodeBuf) || fresh(encodeBuf)
      ensures reply.MustWait? ==>
        && payload == Slice(encodeBuf, |Encode(ev)|) && payload.len <= encodeBuf.Length
        && encodeBuf[..payload.len] == Encode(ev)
        && (if Estimate(ev) <= old(encodeBuf.Length)
            then encodeBuf == old(encodeBuf) && encodeBuf[..] == Overlay(old(encodeBuf[..]), Encode(ev))
            else fresh(encodeBuf) && encodeBuf.Length == Estimate(ev))
      ensures encodeBuf != old(encodeBuf) ==> old(encodeBuf)[..] == old(encodeBuf[..])
    {
      hide Encode;
      if closed { return Returned(false), Slice(encodeBuf, 0); }
      payload := EncodeInto(ev);
      if count < capacity {
        Append(payload, ev);
        return Returned(false), payload;
      }
      match policy {
        case DropNewest =>
          overflows := overflows + 1;
          reply := Returned(true);
        case Block =>
          reply := MustWait;
        case DropOldest =>
          DropOldest();
          Append(payload, ev);
          overflows := overflows + 1;
          reply := Returned(true);
      }
    }

    /**
     The section of a producer that was woken: it writes its slice as it is. If that still holds the
     encoding of its event, this is the FIFO's enqueue.
     */
    method Resume(payload: Slice, ghost ev: Event) returns (reply: Reply)
      requires Valid() && Storable(ev) && policy.Block?
      requires payload.len == |Encode(ev)| <= payload.mem.Length
      modifies this`file, this`writeOff, this`count, this`items
      ensures payload.mem[..payload.len] == Encode(ev)
        ==> Valid() && (Abs(), reply) == FileStep(old(Abs()), Fifo.Enqueue(ev))
      ensures if closed then reply == Returned(false) else if old(count) == capacity then reply.MustWait? else
        && reply == Returned(false)
        && readOff <= writeOff <= |file|
        && file[readOff..writeOff]
             == old(file[readOff..writeOff]) + (Be32(payload.len) + payload.mem[..payload.len])
    {
      hide Encode;
      if count == capacity && !closed { return MustWait; }
      if closed { return Returned(false); }
      WriteRecord(payload.mem[..payload.len]);
      if payload.mem[..payload.len] == Encode(ev) {
        LogAppend(items, ev);
        items := items + [ev];
      }
      count := count + 1;
      reply := Returned(false);
    }

    /** Decodes the front record and moves past it. */
    method TakeFront(n: nat) returns (ev: Event)
      requires Valid() && count > 0 && n == |Encode(items[0])| && readOff + HEADER + n <= writeOff
      requires file[readOff + HEADER..readOff + HEADER + n] == Encode(items[0])
      requires file[readOff + HEADER + n..writeOff] == Log(items[1..])
      modifies this`readOff, this`writeOff, this`file, this`open, this`count, this`items
      ensures Valid() && Rewound() && items == old(items)[1..] && ev == Norm(old(items)[0])
    {
      hide Encode, Decode, Norm;
      var r := DecodeBinary(file[readOff + HEADER..readOff + HEADER + n]);
      StoredRecordDecodes(items[0]);
      ev := r.value;
      Advance(n);
      CompactIfDrained();
    }

    /** Dequeue: skips records over the size limit, then decodes the front record. */
    method Dequeue(cancelled: bool) returns (reply: Reply)
      requires Valid()
      modifies this
      ensures encodeBuf == old(encodeBuf)
      ensures Valid() && (Abs(), reply) == FileStep(old(Abs()), Fifo.Dequeue(cancelled))
      ensures reply.Delivered? ==> Rewound()
      ensures !reply.Delivered? ==> file == old(file) && writeOff == old(writeOff) && open == old(open)
    {
      hide Encode, Norm;
      if count == 0 && !closed && !cancelled { return MustWait; }
      while count > 0
        invariant Valid()
        invariant SkipOversize(items) == SkipOversize(old(items))
        invariant closed == old(closed) && overflows == old(overflows)
        invariant old(items) == [] ==> items == []
        invariant encodeBuf == old(encodeBuf)
        invariant file == old(file) && writeOff == old(writeOff) && open == old(open)
        decreases count
      {
        var n := ReadLen();
        if n <= MAX_FRAME_PAYLOAD {
          var ev := TakeFront(n);
          return Delivered(ev);
        }
        Advance(n);
      }
      reply := Ended;
    }

    method Depth() returns (n: nat)
      requires Valid()
      ensures n == |Abs().items| && n <= capacity
    {
      n := count;
    }

    method Close() returns (reply: Reply)
      requires Valid()
      modifies this`closed, this`open
      ensures Valid() && (Abs(), reply) == FileStep(old(Abs()), Fifo.Close)
      ensures open == (old(open) && (old(closed) || items != []))
    {
      hide Encode;
      if !closed {
        closed := true;
        if count == 0 { open := false; }
      }
      reply := Shut;
    }
  }
}

/** What happens to producers that wait, and the two backends driven side by side. */
module QueueRefinement {
  import opened Core
  import opened Codec
  import opened Fifo
  import opened Ring
  import opened Wal

  lemma {:induction false} IntoArrayAt(len: nat, evs: seq<Event>, i: nat)
    requires i < |evs| && i <= |IntoArray(len, evs)|
    ensures Estimate(evs[i]) <= len <==> i < |IntoArray(len, evs)|
  {
    hide Estimate, Encode;
    if i > 0 { IntoArrayAt(len, evs[1..], i - 1); }
  }

  lemma {:induction false} OverlaysSnoc(mem: Bytes, evs: seq<Event>, ev: Event)
    requires |Encode(ev)| <= |mem| && forall i :: 0 <= i < |evs| ==> |Encode(evs[i])| <= |mem|
    ensures Overlays(mem, evs + [ev]) == Overlay(Overlays(mem, evs), Encode(ev))
    decreases |evs|
  {
    hide Encode, Overlay;
    if evs == [] {
      assert evs + [ev] == [ev] && [ev][1..] == [];
    } else {
      assert (evs + [ev])[1..] == evs[1..] + [ev];
      OverlaySize(mem, Encode(evs[0]));
      OverlaysSnoc(Overlay(mem, Encode(evs[0])), evs[1..], ev);
    }
  }

  lemma OverlaySize(mem: Bytes, enc: Bytes)
    requires |enc| <= |mem|
    ensures |Overlay(mem, enc)| == |mem|
  {
  }

  /** The others come and wait, each encoding its event first. */
  method OthersWait(wal: FileQueue, mem: array<Byte>, others: seq<Event>)
    requires wal.Valid() && wal.policy.Block? && !wal.closed && |wal.items| == wal.capacity
    requires forall i :: 0 <= i < |others| ==> Storable(others[i])
    requires wal.encodeBuf == mem
    modifies wal, mem
    ensures wal.Valid() && wal.Abs() == old(wal.Abs())
    ensures mem[..] == Overlays(old(mem[..]), IntoArray(mem.Length, others))
  {
    hide Encode, Overlays, Storable, Estimate, IntoArray;
    ghost var into, was := IntoArray(mem.Length, others), mem[..];
    NoOverlay(was);
    assert into[..0] == [];
    for i := 0 to |others|
      invariant wal.Valid() && wal.Abs() == old(wal.Abs())
      invariant wal.encodeBuf == mem || fresh(wal.encodeBuf)
      invariant wal.encodeBuf == mem <==> i <= |into|
      invariant wal.encodeBuf == mem ==> mem[..] == Overlays(was, into[..i])
      invariant wal.encodeBuf != mem ==> mem[..] == Overlays(was, into)
    {
      ghost var here := wal.encodeBuf == mem;
      if here {
        if i < |others| && i <= |into| { IntoArrayAt(mem.Length, others, i); }
        if i < |into| {
          OverlaysSnoc(was, into[..i], others[i]);
          assert into[..i + 1] == into[..i] + [others[i]];
        } else {
          assert into[..i] == into;
        }
      }
      var reply, payload := wal.Enqueue(others[i]);
    }
    if wal.encodeBuf == mem { assert into[..|others|] == into; }
  }

  /**
   A producer that waits while others come and wait too. When room is made and it is woken, it writes
   its own record if and only if no other event was encoded into its array meanwhile, or the last one
   that was has the same encoding.
   */
  method WokenProducer(wal: FileQueue, ev: Event, others: seq<Event>) returns (written: Bytes)
    requires wal.Valid() && wal.policy.Block? && !wal.closed && |wal.items| == wal.capacity
    requires Storable(ev) && forall i :: 0 <= i < |others| ==> Storable(others[i])
    requires !Oversize(wal.items[0])
    modifies wal, wal.encodeBuf
    ensures |written| == |Encode(ev)| && wal.readOff <= wal.writeOff <= |wal.file|
    ensures wal.file[wal.readOff..wal.writeOff] == Log(old(wal.items)[1..]) + (Be32(|written|) + written)
    ensures var len := BufferFor(old(wal.encodeBuf.Length), ev); var into := IntoArray(len, others);
      written == Encode(ev) <==> into == [] || Encode(into[|into| - 1]) == Encode(ev)
  {
    hide Encode, Overlays, Estimate, IntoArray, Oversize;
    var reply, payload := wal.Enqueue(ev);
    ghost var mem := payload.mem[..];
    assert mem[..payload.len] == payload.mem[..payload.len];
    OthersWait(wal, payload.mem, others);
    ghost var into := IntoArray(payload.mem.Length, others);
    reply := wal.Dequeue(false);
    written := payload.mem[..payload.len];
    OwnSlice(mem, payload.mem[..], ev, into);
    assert written == payload.mem[..][..payload.len];
    reply := wal.Resume(payload, ev);
  }

  function BufferFor(length: nat, ev: Event): nat {
    if Estimate(ev) <= length then length else Estimate(ev)
  }

  lemma OwnSlice(mem: Bytes, now: Bytes, ev: Event, into: seq<Event>)
    requires Storable(ev) && forall i :: 0 <= i < |into| ==> Storable(into[i]) && |Encode(into[i])| <= |mem|
    requires Encode(ev) <= mem && now == Overlays(mem, into)
    ensures now[..|Encode(ev)|] == Encode(ev) <==> into == [] || Encode(into[|into| - 1]) == Encode(ev)
  {
    hide Encode, Storable, Overlays;
    OwnRecordIff(mem, ev, into);
  }

  /** Two producers of different records, the second of which fits the buffer: the first one's record is
      lost. */
  method TwoBlockedProducers(first: Event, mine: Event, other: Event) returns (written: Bytes)
    requires Storable(first) && Storable(mine) && Storable(other) && !Oversize(first)
    requires Encode(mine) != Encode(other) && Estimate(other) <= Estimate(mine)
    ensures |written| == |Encode(mine)| && written != Encode(mine)
  {
    hide Encode, Estimate, Oversize, Storable;
    var wal := new FileQueue(1, Block);
    var reply, payload := wal.Enqueue(first);
    IntoOne(BufferFor(wal.encodeBuf.Length, mine), other);
    written := WokenProducer(wal, mine, [other]);
  }

  lemma IntoOne(len: nat, ev: Event)
    requires Estimate(ev) <= len
    ensures IntoArray(len, [ev]) == [ev]
  {
    hide Encode, Estimate;
    assert [ev][1..] == [];
  }

  // ----- One producer -------------------------------------------------------------------------------

  /** What the threads of a queue with one producer do: `Retry` is the producer, woken. */
  datatype Call = Put(ev: Event) | Retry | Take(cancelled: bool) | Shut

  function OpOf(pending: Option<Event>, call: Call): Op
    requires call.Retry? ==> pending.Some?
  {
    match call
    case Put(ev) => Enqueue(ev)
    case Retry => Enqueue(pending.value)
    case Take(c) => Dequeue(c)
    case Shut => Close
  }

  function PendingAfter(pending: Option<Event>, op: Op, reply: Reply): Option<Event> {
    if !op.Enqueue? then pending else if reply.MustWait? then Some(op.ev) else None
  }

  /** The producer makes no new call while it waits in one. */
  predicate OneProducer(q: Queue, pending: Option<Event>, calls: seq<Call>)
    decreases |calls|
  {
    calls == [] ||
    ((calls[0].Put? ==> pending.None?) && (calls[0].Retry? ==> pending.Some?) &&
     var op := OpOf(pending, calls[0]);
     var (q', r) := Step(q, op);
     OneProducer(q', PendingAfter(pending, op, r), calls[1..]))
  }

  /** The FIFO operations these calls are: a woken producer repeats its enqueue. */
  function Ops(q: Queue, pending: Option<Event>, calls: seq<Call>): seq<Op>
    requires OneProducer(q, pending, calls)
    decreases |calls|
  {
    if calls == [] then [] else
      var op := OpOf(pending, calls[0]);
      var (q', r) := Step(q, op);
      [op] + Ops(q', PendingAfter(pending, op, r), calls[1..])
  }

  /** Calls the log can hold: storable events of at most 64 MiB. */
  ghost predicate Loggable(call: Call) {
    call.Put? ==> Storable(call.ev) && !Oversize(call.ev)
  }

  /**
   From equal contents, any run of a queue with one producer gives the same drop results, counters,
   depths and ends on the ring buffer and on the log, and the same events up to what the codec carries.
   */
  method Lockstep(ring: RingBuffer, wal: FileQueue, calls: seq<Call>) returns (a: seq<Reply>, b: seq<Reply>)
    requires ring.Valid() && wal.Valid() && ring.Abs() == wal.Abs()
    requires forall ev :: ev in ring.Abs().items ==> !Oversize(ev)
    requires OneProducer(ring.Abs(), None, calls) && forall i :: 0 <= i < |calls| ==> Loggable(calls[i])
    modifies ring, ring.buf, wal, wal.encodeBuf
    ensures ring.Valid() && wal.Valid() && ring.Abs() == wal.Abs()
    ensures a == Run(old(ring.Abs()), Ops(old(ring.Abs()), None, calls)).1
    ensures b == NormReplies(a)
  {
    hide Encode, Norm, Oversize, Storable, Step, FileStep, OneProducer, Ops, Run, PendingAfter;
    ghost var start := ring.Abs();
    a, b := [], [];
    var pending, slice := None, Slice(wal.encodeBuf, 0);
    ghost var all := Run(start, Ops(start, None, calls)).1;
    assert calls[0..] == calls && [] + all == all;
    for i := 0 to |calls|
      invariant ring.Valid() && wal.Valid() && ring.Abs() == wal.Abs()
      invariant wal.encodeBuf == old(wal.encodeBuf) || fresh(wal.encodeBuf)
      invariant forall ev :: ev in ring.Abs().items ==> !Oversize(ev)
      invariant pending.Some? ==> wal.policy.Block? && Ready(wal, slice, pending.value) && !Oversize(pending.value)
      invariant b == NormReplies(a)
      invariant OneProducer(ring.Abs(), pending, calls[i..])
      invariant all == a + Run(ring.Abs(), Ops(ring.Abs(), pending, calls[i..])).1
    {
      ghost var q, was := ring.Abs(), pending;
      assert Loggable(calls[i]);
      OpsStep(q, pending, calls[i..]);
      assert calls[i..][0] == calls[i] && calls[i..][1..] == calls[i + 1..];
      ghost var op := OpOf(pending, calls[i]);
      StepsAgree(q, op);
      StepKeepsSmall(q, op);
      var r, s;
      r, s, pending, slice := Apply(ring, wal, calls[i], pending, slice);
      PendingSame(was, op, r);
      ghost var more := Run(ring.Abs(), Ops(ring.Abs(), pending, calls[i + 1..])).1;
      assert a + ([r] + more) == a + [r] + more;
      NormSnoc(a, r);
      a, b := a + [r], b + [s];
    }
    OpsEnd(ring.Abs(), pending);
    assert calls[|calls|..] == [] && a + [] == a;
  }

  /** The waiting producer's slice still holds its record. */
  ghost predicate Ready(wal: FileQueue, slice: Slice, ev: Event)
    reads wal, slice.mem
  {
    && Storable(ev) && slice.len == |Encode(ev)| <= slice.mem.Length && slice.mem[..slice.len] == Encode(ev)
    && slice.mem == wal.encodeBuf
  }

  lemma WaitsIfBlocking(q: Queue, ev: Event)
    ensures FileStep(q, Enqueue(ev)).1.MustWait? ==> q.policy.Block?
  {
  }

  lemma PendingSame(pending: Option<Event>, op: Op, r: Reply)
    ensures PendingAfter(pending, op, NormReply(r)) == PendingAfter(pending, op, r)
  {
  }

  lemma NormSnoc(a: seq<Reply>, r: Reply)
    ensures NormReplies(a + [r]) == NormReplies(a) + [NormReply(r)]
  {
  }

  lemma OpsStep(q: Queue, pending: Option<Event>, calls: seq<Call>)
    requires calls != [] && OneProducer(q, pending, calls)
    ensures (calls[0].Put? ==> pending.None?) && (calls[0].Retry? ==> pending.Some?)
    ensures var op := OpOf(pending, calls[0]); var (q', r) := Step(q, op);
      && OneProducer(q', PendingAfter(pending, op, r), calls[1..])
      && Run(q, Ops(q, pending, calls)).1
           == [r] + Run(q', Ops(q', PendingAfter(pending, op, r), calls[1..])).1
  {
    hide Step;
    var op := OpOf(pending, calls[0]);
    var (q', r) := Step(q, op);
    var rest := Ops(q', PendingAfter(pending, op, r), calls[1..]);
    assert Ops(q, pending, calls)[1..] == rest;
  }

  lemma OpsEnd(q: Queue, pending: Option<Event>)
    requires OneProducer(q, pending, [])
    ensures Run(q, Ops(q, pending, [])).1 == []
  {
  }

  method Apply(ring: RingBuffer, wal: FileQueue, call: Call, pending: Option<Event>, slice: Slice)
    returns (r: Reply, s: Reply, pending': Option<Event>, slice': Slice)
    requires ring.Valid() && wal.Valid() && Loggable(call)
    requires (call.Put? ==> pending.None?) && (call.Retry? ==> pending.Some?)
    requires pending.Some? ==> wal.policy.Block? && Ready(wal, slice, pending.value)
    modifies ring, ring.buf, wal, wal.encodeBuf
    ensures ring.Valid() && wal.Valid()
    ensures wal.encodeBuf == old(wal.encodeBuf) || fresh(wal.encodeBuf)
    ensures (ring.Abs(), r) == Step(old(ring.Abs()), OpOf(pending, call))
    ensures (wal.Abs(), s) == FileStep(old(wal.Abs()), OpOf(pending, call))
    ensures pending' == PendingAfter(pending, OpOf(pending, call), s)
    ensures pending'.Some? ==> wal.policy.Block? && Ready(wal, slice', pending'.value)
    ensures pending'.Some? ==> pending' == pending || call == Put(pending'.value)
  {
    hide Encode, Oversize, Step, FileStep, Storable;
    pending', slice' := pending, slice;
    match call {
      case Put(ev) =>
        WaitsIfBlocking(wal.Abs(), ev);
        r := ring.Enqueue(ev);
        s, slice' := wal.Enqueue(ev);
        pending' := if s.MustWait? then Some(ev) else None;
      case Retry =>
        r := ring.Enqueue(pending.value);
        s := wal.Resume(slice, pending.value);
        pending' := if s.MustWait? then pending else None;
      case Take(c) => r := ring.Dequeue(c); s := wal.Dequeue(c);
      case Shut => r := ring.Close(); s := wal.Close();
    }
  }
}
