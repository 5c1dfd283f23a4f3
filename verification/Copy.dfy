/**
 COPY FROM STDIN capture (pkg/protocol/copybuffer.go): CopyData segments are buffered per
 connection up to a byte cap and handed over all together or not at all.
 */
module Copy {
  import opened Core

  /** The state of one connection's COPY. */
  datatype CopyState = NoCopy | Copying(sql: Bytes, data: seq<Bytes>, size: nat) | Overflowed(sql: Bytes)

  function AddSegment(cap: nat, st: CopyState, payload: Bytes): CopyState {
    match st
    case Copying(sql, data, size) =>
      if size + |payload| > cap then Overflowed(sql) else Copying(sql, data + [payload], size + |payload|)
    case _ => st
  }

  /** What CopyDone hands over. */
  function Finished(st: CopyState): Option<(Bytes, seq<Bytes>)> {
    if st.Copying? then Some((st.sql, st.data)) else None
  }

  datatype Op =
    | Start(conn: ConnId, sql: Bytes)
    | Data(conn: ConnId, payload: Bytes)
    | End(conn: ConnId)  // CopyDone, CopyFail, or the connection being discarded

  /** The state of connection `c` after an interleaved history on many connections. */
  function StateAfter(cap: nat, ops: seq<Op>, c: ConnId): CopyState {
    if ops == [] then NoCopy else
      var st := StateAfter(cap, ops[..|ops| - 1], c);
      var op := ops[|ops| - 1];
      if op.conn != c then st
      else match op
           case Start(_, sql) => Copying(sql, [], 0)
           case Data(_, payload) => AddSegment(cap, st, payload)
           case End(_) => NoCopy
  }

  /** The running COPY of `c`, read off the history alone: its statement and every segment since. */
  function SinceStart(ops: seq<Op>, c: ConnId): Option<(Bytes, seq<Bytes>)> {
    if ops == [] then None else
      var earlier := SinceStart(ops[..|ops| - 1], c);
      var op := ops[|ops| - 1];
      if op.conn != c then earlier
      else match op
           case Start(_, sql) => Some((sql, []))
           case Data(_, payload) =>
             if earlier.None? then None else Some((earlier.value.0, earlier.value.1 + [payload]))
           case End(_) => None
  }

  function Total(segs: seq<Bytes>): nat {
    if segs == [] then 0 else Total(segs[..|segs| - 1]) + |segs[|segs| - 1]|
  }

  lemma TotalSnoc(segs: seq<Bytes>, p: Bytes)
    ensures Total(segs + [p]) == Total(segs) + |p|
  {
    assert (segs + [p])[..|segs|] == segs;
  }

  /**
   All or nothing, for every interleaving: a CopyDone on `c` hands over exactly the segments
   received on `c` since its COPY started, in order, if and only if a COPY is running there and
   the segments together stay within the cap. What is retained never exceeds the cap.
   */
  lemma {:induction false} AllOrNothing(cap: nat, ops: seq<Op>, c: ConnId)
    ensures Finished(StateAfter(cap, ops, c)) ==
      match SinceStart(ops, c)
      case None => None
      case Some((sql, segs)) => if Total(segs) <= cap then Some((sql, segs)) else None
    ensures SinceStart(ops, c).None? <==> StateAfter(cap, ops, c).NoCopy?
    ensures StateAfter(cap, ops, c).Copying? ==>
      StateAfter(cap, ops, c).size == Total(StateAfter(cap, ops, c).data) <= cap
  {
    if ops != [] {
      AllOrNothing(cap, ops[..|ops| - 1], c);
      var op := ops[|ops| - 1];
      var earlier := SinceStart(ops[..|ops| - 1], c);
      if op.conn == c && op.Data? && earlier.Some? {
        TotalSnoc(earlier.value.1, op.payload);
      }
    }
  }

  /** The tracker: three maps per connection, as the capture code keeps them. */
  class CopyTracker {
    const cap: nat
    var sqls: map<ConnId, Bytes>        // in-progress COPY statement
    var segments: map<ConnId, seq<Bytes>>
    var sizes: map<ConnId, nat>
    var overflow: set<ConnId>

    ghost predicate Valid()
      reads this
    {
      && sqls.Keys == segments.Keys
      && sizes.Keys <= sqls.Keys && overflow <= sqls.Keys
    }

    function At(c: ConnId): CopyState
      requires Valid()
      reads this
    {
      if c !in sqls then NoCopy
      else if c in overflow then Overflowed(sqls[c])
      else Copying(sqls[c], segments[c], if c in sizes then sizes[c] else 0)
    }

    constructor (cap: nat)
      ensures Valid() && this.cap == cap
      ensures forall c :: At(c) == NoCopy
    {
      this.cap := cap;
      sqls, segments, sizes, overflow := map[], map[], map[], {};
    }

    method Clear(c: ConnId)
      requires Valid()
      modifies this
      ensures Valid() && At(c) == NoCopy
      ensures forall d :: d != c ==> At(d) == old(At(d))
    {
      sqls, segments, sizes, overflow := sqls - {c}, segments - {c}, sizes - {c}, overflow - {c};
    }

    method Start(c: ConnId, sql: Bytes)
      requires Valid()
      modifies this
      ensures Valid() && At(c) == Copying(sql, [], 0)
      ensures forall d :: d != c ==> At(d) == old(At(d))
    {
      Clear(c);
      sqls, segments := sqls[c := sql], segments[c := []];
    }

    method Data(c: ConnId, payload: Bytes) returns (accepted: bool)
      requires Valid()
      modifies this
      ensures Valid() && At(c) == AddSegment(cap, old(At(c)), payload)
      ensures accepted <==> old(At(c)).Copying? && At(c).Copying?
      ensures forall d :: d != c ==> At(d) == old(At(d))
    {
      if c !in sqls || c in overflow { return false; }
      var size := if c in sizes then sizes[c] else 0;
      if size + |payload| > cap {
        overflow := overflow + {c};
        segments, sizes := segments[c := []], sizes[c := 0];
        return false;
      }
      segments, sizes := segments[c := segments[c] + [payload]], sizes[c := size + |payload|];
      accepted := true;
    }

    method Done(c: ConnId) returns (r: Option<(Bytes, seq<Bytes>)>)
      requires Valid()
      modifies this
      ensures Valid() && r == Finished(old(At(c))) && At(c) == NoCopy
      ensures forall d :: d != c ==> At(d) == old(At(d))
    {
      r := if c in sqls && c !in overflow then Some((sqls[c], segments[c])) else None;
      Clear(c);
    }
  }
}
