/** flushLog and completeExecution (agentupload.go): the upload loops of the
  * agent against the controller's AppendLog over a channel that delivers. */
module LogFlush {
  import opened Model
  import opened LogTransport

  /** Chunks needed for n bytes. */
  function Chunks(n: int): (c: nat)
    ensures n <= 0 ==> c == 0
    ensures n > 0 ==> (c - 1) * CHUNK_LIMIT < n <= c * CHUNK_LIMIT
  {
    if n <= 0 then 0 else (n + CHUNK_LIMIT - 1) / CHUNK_LIMIT
  }

  lemma ChunksStep(n: int, sent: int)
    requires n > 0 && sent >= (if n > CHUNK_LIMIT then CHUNK_LIMIT else n)
    ensures Chunks(n - sent) + 1 <= Chunks(n)
  {
  }

  function ChunkLength(left: int): int {
    if left > CHUNK_LIMIT then CHUNK_LIMIT else left
  }

  /** Agent and controller agree on how far the upload is. */
  ghost predicate InStep(log: Log, acked: int) {
    log.truncated || acked == |log.bytes|
  }

  /** One upload from `acked`: afterwards the two sides are in step, and if they
    * were before, a whole chunk has been acknowledged. */
  lemma UploadProgress(log: Log, local: seq<byte>, cap: Cap, acked: int)
    requires Faithful(log, local, cap.notice) && 0 <= acked < |local|
    ensures var length := ChunkLength(|local| - acked);
      var r := Append(log, cap, acked, local[acked..acked + length]);
      && Faithful(r.log, local, cap.notice) && r.acked >= 0
      && InStep(r.log, r.acked)
      && (InStep(log, acked) ==> r.acked >= acked + length)
      && (!InStep(log, acked) ==> r.acked != acked)
      && (r.acked < acked ==> !log.truncated && acked > |log.bytes| == r.acked)
      && (!r.log.truncated ==> r.acked == |r.log.bytes| <= |local|)
      && (!log.truncated && |local| <= cap.bytes ==> !r.log.truncated)
  {
    var length := ChunkLength(|local| - acked);
    var data := local[acked..acked + length];
    AppendIsFaithful(log, local, cap, acked, data);
  }

  /** What flushLog did. */
  datatype Flush = Flush(acked: int, converged: bool, uploads: nat, rewinds: nat)

  /** After `uploads` uploads of a flush that began at `start` on `before`. */
  ghost predicate Uploaded(before: Log, log: Log, local: seq<byte>, cap: Cap, start: int, acked: int, uploads: nat, rewinds: nat) {
    && acked >= 0 && Faithful(log, local, cap.notice)
    && (uploads == 0 ==> acked == start && log == before && rewinds == 0)
    && (uploads > 0 ==> start < |local| && InStep(log, acked) && uploads + Chunks(|local| - acked) <= 1 + Chunks(|local|))
    && (uploads > 0 && !log.truncated ==> acked <= |local|)
    && rewinds <= 1 && (rewinds == 1 ==> !before.truncated && start > |before.bytes|)
    && (!before.truncated && |local| <= cap.bytes ==> !log.truncated)
  }

  lemma UploadedNext(before: Log, log: Log, local: seq<byte>, cap: Cap, start: int, acked: int, uploads: nat, rewinds: nat)
    requires Uploaded(before, log, local, cap, start, acked, uploads, rewinds) && acked < |local|
    ensures var r := Append(log, cap, acked, local[acked..acked + ChunkLength(|local| - acked)]);
      && r.acked != acked
      && Uploaded(before, r.log, local, cap, start, r.acked, uploads + 1, if r.acked < acked then rewinds + 1 else rewinds)
  {
    var length := ChunkLength(|local| - acked);
    var r := Append(log, cap, acked, local[acked..acked + length]);
    UploadProgress(log, local, cap, acked);
    if InStep(log, acked) {
      ChunksStep(|local| - acked, r.acked - acked);
      ChunksMonotone(|local| - r.acked, |local| - acked - length);
    } else {
      ChunksMonotone(|local| - r.acked, |local|);
    }
  }

  /** What a flush promises. */
  ghost predicate FlushOk(before: Log, log: Log, local: seq<byte>, cap: Cap, start: int, r: Flush) {
    && Faithful(log, local, cap.notice)
    // an offset at or past the end is taken at its word
    && (start >= |local| ==> r == Flush(start, true, 0, 0) && log == before)
    // effort
    && r.uploads <= 1 + Chunks(|local|) && r.rewinds <= 1
    && (r.rewinds == 1 ==> !before.truncated && start > |before.bytes|)
    && (Chunks(|local|) <= MAX_ATTEMPTS - 2 ==> r.converged)
    // outcome
    && (if r.converged then r.acked >= |local| else r.uploads == MAX_ATTEMPTS)
    && (r.converged && start < |local| && !log.truncated ==> r.acked == |local| && log.bytes == local)
    && (!before.truncated && |local| <= cap.bytes ==> !log.truncated)
  }

  lemma UploadedEnds(before: Log, log: Log, local: seq<byte>, cap: Cap, start: int, acked: int, uploads: nat, rewinds: nat)
    requires Uploaded(before, log, local, cap, start, acked, uploads, rewinds)
    ensures acked >= |local| ==> FlushOk(before, log, local, cap, start, Flush(acked, true, uploads, rewinds))
    ensures uploads == MAX_ATTEMPTS ==> FlushOk(before, log, local, cap, start, Flush(acked, false, uploads, rewinds))
  {
  }

  /** flushLog over a local log that does not grow meanwhile. */
  method FlushLog(local: seq<byte>, log: LogFile, cap: Cap, start: int) returns (r: Flush)
    requires Faithful(log.Value(), local, cap.notice) && start >= 0
    modifies log
    ensures FlushOk(old(log.Value()), log.Value(), local, cap, start, r)
  {
    ghost var before := log.Value();
    var acked := start;
    var rewinds: nat := 0;
    for attempt := 0 to MAX_ATTEMPTS
      invariant Uploaded(before, log.Value(), local, cap, start, acked, attempt, rewinds)
    {
      var size := |local|;
      if acked >= size {
        UploadedEnds(before, log.Value(), local, cap, start, acked, attempt, rewinds);
        return Flush(acked, true, attempt, rewinds);
      }
      UploadedNext(before, log.Value(), local, cap, start, acked, attempt, rewinds);
      var next := UploadLog(local, log, cap, acked);
      if next == acked {
        // nothing new was accepted: stop instead of spinning
        assert false;
      }
      if next < acked {
        rewinds := rewinds + 1;
      }
      acked := next;
    }
    UploadedEnds(before, log.Value(), local, cap, start, acked, MAX_ATTEMPTS, rewinds);
    r := Flush(acked, false, MAX_ATTEMPTS, rewinds);
  }

  /** One chunk, cut at the limit, and the controller's answer. */
  method UploadLog(local: seq<byte>, log: LogFile, cap: Cap, acked: nat) returns (next: int)
    requires acked < |local|
    modifies log
    ensures Ack(log.Value(), next) == Append(old(log.Value()), cap, acked, local[acked..acked + ChunkLength(|local| - acked)])
  {
    var length := |local| - acked;
    if length > CHUNK_LIMIT {
      length := CHUNK_LIMIT;
    }
    next := log.AppendLog(cap, acked, local[acked..acked + length]);
  }

  lemma ChunksMonotone(a: int, b: int)
    requires a <= b
    ensures Chunks(a) <= Chunks(b)
  {
  }

  /** Against an untruncated log with room for everything, a flush ends with the
    * whole local log stored exactly when it started short of the end or nothing
    * was missing. */
  lemma FlushStoresEverything(before: Log, log: Log, local: seq<byte>, cap: Cap, start: int, r: Flush)
    requires FlushOk(before, log, local, cap, start, r) && !before.truncated
    requires |local| <= cap.bytes && Chunks(|local|) <= MAX_ATTEMPTS - 2
    ensures log.bytes == local <==> start < |local| || before.bytes == local
    ensures start < |local| ==> r.acked == |local| == |log.bytes|
  {
  }

  /** completeExecution's loop on a channel that delivers: flush, submit, and
    * when bytes are missing start again from the controller's offset. */
  method CompleteExecution(local: seq<byte>, log: LogFile, cap: Cap, start: int) returns (rounds: nat)
    requires Faithful(log.Value(), local, cap.notice) && start >= 0
    requires Chunks(|local|) <= MAX_ATTEMPTS - 2
    modifies log
    ensures Confirms(log.Value(), |local|) && Faithful(log.Value(), local, cap.notice)
    ensures !log.truncated ==> log.bytes == local
    ensures 1 <= rounds <= 2
  {
    var acked := start;
    rounds := 0;
    while true
      invariant Faithful(log.Value(), local, cap.notice) && acked >= 0 && rounds <= 1
      invariant rounds == 1 ==> !log.truncated && acked == |log.bytes| < |local|
      decreases 2 - rounds
    {
      var flushed := FlushLog(local, log, cap, acked);
      rounds := rounds + 1;
      if log.truncated || |log.bytes| == |local| {
        return;
      }
      acked := |log.bytes|;
    }
  }
}
