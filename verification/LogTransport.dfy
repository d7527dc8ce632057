/** The log offset protocol: AppendLog on the controller (ctrlagentops.go),
  * flushLog and completeExecution on the agent (agentupload.go). */
module LogTransport {
  import opened Model

  newtype byte = x: int | 0 <= x < 256

  const CHUNK_LIMIT: nat := 524288
  const MAX_ATTEMPTS: nat := 10000

  /** server.max_log_bytes and the notice written when a log reaches it. */
  datatype Cap = Cap(bytes: nat, notice: seq<byte>)

  /** What the controller holds of one log: the file, LogTruncated, LogOffset. */
  datatype Log = Log(bytes: seq<byte>, truncated: bool, offset: int)

  datatype Ack = Ack(log: Log, acked: int)

  function Max(a: int, b: int): int {
    if a < b then b else a
  }

  /** The part of a chunk that lies beyond what is stored. */
  function Tail(size: nat, offset: int, data: seq<byte>): seq<byte> {
    if offset > size || size - offset >= |data| then [] else data[size - offset..]
  }

  /** AppendLog for an execution that is owned and open. */
  function Append(log: Log, cap: Cap, offset: int, data: seq<byte>): Ack {
    var size := |log.bytes|;
    var tail := Tail(size, offset, data);
    if log.truncated then Ack(log, Max(offset + |data|, log.offset))
    else if tail == [] then Ack(log, size)
    else
      var acked := size + |tail|;
      var room := Max(cap.bytes - size, 0);
      if acked > cap.bytes
      then Ack(Log(log.bytes + tail[..room] + cap.notice, true, Max(log.offset, acked)), acked)
      else Ack(Log(log.bytes + tail, false, Max(log.offset, acked)), acked)
  }

  /** The controller's side of one execution's log. */
  class LogFile {
    var bytes: seq<byte>
    var truncated: bool
    var offset: int

    constructor ()
      ensures Value() == Log([], false, 0)
    {
      bytes, truncated, offset := [], false, 0;
    }

    function Value(): Log
      reads this
    {
      Log(bytes, truncated, offset)
    }

    /** file.WriteAt for a write that leaves no hole. */
    method WriteAt(payload: seq<byte>, at: nat)
      requires at <= |bytes|
      modifies this`bytes
      ensures bytes == Written(old(bytes), payload, at)
    {
      bytes := bytes[..at] + payload + if at + |payload| <= |bytes| then bytes[at + |payload|..] else [];
    }

    method SetLogOffset(acked: int)
      modifies this`offset
      ensures offset == Max(old(offset), acked)
    {
      if acked > offset {
        offset := acked;
      }
    }

    method AppendLog(cap: Cap, start: int, data: seq<byte>) returns (acked: int)
      modifies this
      ensures Ack(Value(), acked) == Append(old(Value()), cap, start, data)
    {
      if truncated {
        acked := start + |data|;
        if acked < offset {
          acked := offset;
        }
        return;
      }
      var size := |bytes|;
      if start > size {
        return size;
      }
      var skip := size - start;
      if skip >= |data| {
        return size;
      }
      var payload := data[skip..];
      acked := size + |payload|;
      var truncate := false;
      if size + |payload| > cap.bytes {
        var room := cap.bytes - size;
        if room < 0 {
          room := 0;
        }
        payload := payload[..room];
        truncate := true;
      }
      if |payload| > 0 {
        WriteAt(payload, size);
      }
      if truncate {
        WriteAt(cap.notice, size + |payload|);
        truncated := true;
      }
      SetLogOffset(acked);
    }
  }

  function Written(bytes: seq<byte>, payload: seq<byte>, at: nat): seq<byte>
    requires at <= |bytes|
  {
    bytes[..at] + payload + if at + |payload| <= |bytes| then bytes[at + |payload|..] else []
  }

  // ---- safety: the stored log against the local one --------------------------------------

  /** A chunk an agent may ever have sent: a piece of its local log. */
  ghost predicate IsPiece(local: seq<byte>, offset: int, data: seq<byte>) {
    0 <= offset && offset + |data| <= |local| && data == local[offset..offset + |data|]
  }

  /** A prefix of the local log, then at most one truncation notice. */
  ghost predicate Faithful(log: Log, local: seq<byte>, notice: seq<byte>) {
    if log.truncated then exists n: nat :: IsCut(log.bytes, local, notice, n) else log.bytes <= local
  }

  ghost predicate IsCut(bytes: seq<byte>, local: seq<byte>, notice: seq<byte>, n: nat) {
    n <= |local| && bytes == local[..n] + notice
  }

  datatype Event =
    | Grow(more: seq<byte>)                    // the script writes
    | Deliver(offset: int, data: seq<byte>)    // a chunk arrives, late or again

  /** The local log grows at its end; chunks arrive in any order, any number of
    * times, as long as they were cut from the local log at some time. */
  datatype Link = Link(local: seq<byte>, log: Log)

  function Happens(l: Link, cap: Cap, e: Event): Link {
    match e
    case Grow(more) => l.(local := l.local + more)
    case Deliver(offset, data) => l.(log := Append(l.log, cap, offset, data).log)
  }

  ghost predicate IsHistory(links: seq<Link>, cap: Cap, events: seq<Event>) {
    && |links| == |events| + 1
    && links[0].log.bytes == [] && !links[0].log.truncated
    && (forall i :: 0 <= i < |events| ==> links[i + 1] == Happens(links[i], cap, events[i]))
    && (forall i :: 0 <= i < |events| && events[i].Deliver? ==> IsPiece(links[i].local, events[i].offset, events[i].data))
  }

  lemma AppendIsFaithful(log: Log, local: seq<byte>, cap: Cap, offset: int, data: seq<byte>)
    requires Faithful(log, local, cap.notice) && IsPiece(local, offset, data)
    ensures Faithful(Append(log, cap, offset, data).log, local, cap.notice)
  {
    var size := |log.bytes|;
    var tail := Tail(size, offset, data);
    if !log.truncated && tail != [] {
      assert log.bytes + tail == local[..size + |tail|];
      var room := Max(cap.bytes - size, 0);
      if size + |tail| > cap.bytes {
        assert log.bytes + tail[..room] == local[..size + room];
        assert IsCut(log.bytes + tail[..room] + cap.notice, local, cap.notice, size + room);
      }
    }
  }

  lemma GrowthIsFaithful(log: Log, local: seq<byte>, more: seq<byte>, notice: seq<byte>)
    requires Faithful(log, local, notice)
    ensures Faithful(log, local + more, notice)
  {
    if log.truncated {
      var n: nat :| IsCut(log.bytes, local, notice, n);
      assert (local + more)[..n] == local[..n];
      assert IsCut(log.bytes, local + more, notice, n);
    }
  }

  /** At every step of every history the controller's log is a prefix of the
    * agent's local log, followed by at most one truncation notice. */
  lemma {:induction false} AlwaysFaithful(links: seq<Link>, cap: Cap, events: seq<Event>, i: nat)
    requires IsHistory(links, cap, events) && i < |links|
    ensures Faithful(links[i].log, links[i].local, cap.notice)
  {
    if i > 0 {
      AlwaysFaithful(links, cap, events, i - 1);
      match events[i - 1]
      case Grow(more) => GrowthIsFaithful(links[i - 1].log, links[i - 1].local, more, cap.notice);
      case Deliver(offset, data) => AppendIsFaithful(links[i - 1].log, links[i - 1].local, cap, offset, data);
    }
  }

  /** The stored log only grows, and once truncated it is frozen. */
  lemma {:induction false} StoredLogIsStable(links: seq<Link>, cap: Cap, events: seq<Event>, i: nat, j: nat)
    requires IsHistory(links, cap, events) && i <= j < |links|
    ensures links[i].log.bytes <= links[j].log.bytes && links[i].local <= links[j].local
    ensures links[i].log.truncated ==> links[j].log.bytes == links[i].log.bytes && links[j].log.truncated
    decreases j - i
  {
    if i < j {
      StoredLogIsStable(links, cap, events, i, j - 1);
    }
  }

  /** SubmitResult's test: the result of a finished run is confirmed. */
  predicate Confirms(log: Log, logLength: int) {
    log.truncated || |log.bytes| == logLength
  }

  /** A confirmed, untruncated result means the whole local log is stored, and
    * no chunk still under way can change it. */
  lemma ConfirmedLogIsComplete(links: seq<Link>, cap: Cap, events: seq<Event>, i: nat, offset: int, data: seq<byte>)
    requires IsHistory(links, cap, events) && i < |links|
    requires Confirms(links[i].log, |links[i].local|) && !links[i].log.truncated && IsPiece(links[i].local, offset, data)
    ensures links[i].log.bytes == links[i].local
    ensures Append(links[i].log, cap, offset, data).log == links[i].log
  {
    AlwaysFaithful(links, cap, events, i);
  }
}
