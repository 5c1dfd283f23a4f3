/**
 Data that flows through the capture-and-replay pipeline: bytes, connection keys,
 statement parameters, SQL events and framed protocol messages.
 */
module Core {

  datatype Option<+T> = None | Some(value: T) {
    predicate IsFailure() { None? }
    function PropagateFailure<U>(): Option<U>
      requires None?
    {
      None
    }
    function Extract(): T
      requires Some?
    {
      value
    }
  }

  type Byte = b: int | 0 <= b < 256
  type Bytes = seq<Byte>

  type U16 = n: int | 0 <= n < 0x1_0000
  type U32 = n: int | 0 <= n < 0x1_0000_0000
  type I16 = n: int | -0x8000 <= n < 0x8000
  type I64 = n: int | -0x8000_0000_0000_0000 <= n < 0x8000_0000_0000_0000

  type Octets4 = b: Bytes | |b| == 4 witness [0, 0, 0, 0]
  type Octets16 = b: Bytes | |b| == 16
    witness [0, 0, 0, 0, 0, 0, 0, 0, 0, 0, 0, 0, 0, 0, 0, 0]

  /** A network address: the zero address, IPv4, or IPv6 with an optional zone. */
  datatype Addr = NoAddr | V4(octets4: Octets4) | V6(octets16: Octets16, zone: Bytes)

  /** The four-tuple that names one captured TCP connection. */
  datatype ConnId = ConnId(srcIp: Addr, srcPort: U16, dstIp: Addr, dstPort: U16)

  /** A statement parameter; `None` is SQL NULL and is distinct from the empty value. */
  datatype Param = Param(oid: U32, value: Option<Bytes>, format: I16)

  /** The unit that travels from the filter through the queue to the replayer. */
  datatype Event = Event(
    conn: ConnId,
    sql: Bytes,
    timestamp: I64,
    txId: nat,
    seqNo: nat,
    extended: bool,
    stmtName: Bytes,
    params: seq<Param>,
    copyData: seq<Bytes>,
    sourceExecTime: I64,
    user: Bytes)

  /** A framed wire-protocol message; kind 0 stands for the untyped startup messages. */
  datatype Message = Message(kind: Byte, length: U32, payload: Bytes)

  datatype TxStatus = TxIdle | TxInTx | TxFailed

  datatype StmtClass =
    | ClassUnknown | ClassPlainSelect | ClassProcSelect | ClassCall | ClassDML
    | ClassDDL | ClassBegin | ClassCommitRollback | ClassUtility | ClassCopyFrom

  /** The network-order (big-endian) 16- and 32-bit integers and their readers. */
  function Be16(n: U16): (b: Bytes)
    ensures |b| == 2 && FromBe16(b) == n
  {
    [n / 256, n % 256]
  }

  function FromBe16(b: Bytes): (n: U16)
    requires |b| == 2
  {
    b[0] as int * 256 + b[1] as int
  }

  function Be32(n: U32): (b: Bytes)
    ensures |b| == 4 && FromBe32(b) == n
  {
    var hi: U16 := n / 0x1_0000;
    var lo: U16 := n % 0x1_0000;
    assert (Be16(hi) + Be16(lo))[..2] == Be16(hi) && (Be16(hi) + Be16(lo))[2..] == Be16(lo);
    Be16(hi) + Be16(lo)
  }

  function FromBe32(b: Bytes): (n: U32)
    requires |b| == 4
  {
    FromBe16(b[..2]) as int * 0x1_0000 + FromBe16(b[2..]) as int
  }
}
