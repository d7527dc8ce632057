/** AppendLog as it runs on the controller (ctrlagentops.go): every request has a
  * handler of its own, which reads the truncation flag, measures the file,
  * writes the payload, writes the notice, marks the truncation and records the
  * offset. Any number of handlers may overlap, fail or be lost in a restart. */
module LogHandlers {
  import opened LogTransport

  /** How far a handler got. `size` is the file size it measured, and `seen`
    * how many notices the file held then. */
  datatype Stage =
    | Checked
    | Measured(size: nat, seen: nat)
    | Wrote(size: nat, seen: nat)
    | Noticed(size: nat, seen: nat)
    | Marked(size: nat, seen: nat)

  datatype Handler = Handler(offset: nat, data: seq<byte>, stage: Stage)

  /** The file, LogTruncated and LogOffset of one execution, and the handlers
    * under way; `notices` is history. */
  datatype Store = Store(bytes: seq<byte>, truncated: bool, offset: int, handlers: map<nat, Handler>, notices: nat)

  const EMPTY_STORE := Store([], false, 0, map[], 0)

  datatype Event =
    | Arrive(h: nat, start: nat, data: seq<byte>)
    | Measure(h: nat)
    | WritePayload(h: nat)
    | WriteNotice(h: nat)
    | Mark(h: nat)
    | Finish(h: nat)
    | Fail(h: nat)
    | Restart

  // ---- what one handler does ---------------------------------------------------------------

  /** Something of the chunk lies past the measured end, and it leaves no gap. */
  predicate Reaches(h: Handler, size: nat) {
    h.offset <= size && size - h.offset < |h.data|
  }

  predicate Overflows(h: Handler, cap: Cap, size: nat) {
    size + |Tail(size, h.offset, h.data)| > cap.bytes
  }

  function Payload(h: Handler, cap: Cap, size: nat): seq<byte> {
    var tail := Tail(size, h.offset, h.data);
    if Overflows(h, cap, size) then tail[..Max(cap.bytes - size, 0)] else tail
  }

  /** file.WriteAt, which fills a hole with zeros. */
  function WriteAt(bytes: seq<byte>, payload: seq<byte>, at: nat): seq<byte> {
    if at <= |bytes| then Written(bytes, payload, at)
    else bytes + seq(at - |bytes|, _ => 0) + payload
  }

  function Advance(st: Store, id: nat, stage: Stage): Store
    requires id in st.handlers
  {
    st.(handlers := st.handlers[id := st.handlers[id].(stage := stage)])
  }

  function Leave(st: Store, id: nat): Store {
    st.(handlers := st.handlers - {id})
  }

  /** A request for a truncated log is answered at once. */
  function DoArrive(st: Store, id: nat, start: nat, data: seq<byte>): Store {
    if id in st.handlers || st.truncated then st else st.(handlers := st.handlers[id := Handler(start, data, Checked)])
  }

  /** A gap and a duplicate are answered with the size. */
  function DoMeasure(st: Store, id: nat): Store {
    if id !in st.handlers || !st.handlers[id].stage.Checked? then st
    else if !Reaches(st.handlers[id], |st.bytes|) then Leave(st, id)
    else Advance(st, id, Measured(|st.bytes|, st.notices))
  }

  function DoWritePayload(st: Store, cap: Cap, id: nat): Store {
    if id !in st.handlers || !st.handlers[id].stage.Measured? then st
    else
      var h := st.handlers[id];
      Advance(st, id, Wrote(h.stage.size, h.stage.seen)).(bytes := WriteAt(st.bytes, Payload(h, cap, h.stage.size), h.stage.size))
  }

  predicate CanNotice(st: Store, cap: Cap, id: nat) {
    id in st.handlers && st.handlers[id].stage.Wrote? && Overflows(st.handlers[id], cap, st.handlers[id].stage.size)
  }

  function DoWriteNotice(st: Store, cap: Cap, id: nat): Store {
    if !CanNotice(st, cap, id) then st
    else
      var h := st.handlers[id];
      Advance(st, id, Noticed(h.stage.size, h.stage.seen))
        .(bytes := WriteAt(st.bytes, cap.notice, h.stage.size + |Payload(h, cap, h.stage.size)|),
          notices := Max(st.notices, h.stage.seen + 1))
  }

  function DoMark(st: Store, id: nat): Store {
    if id !in st.handlers || !st.handlers[id].stage.Noticed? then st
    else Advance(st, id, Marked(st.handlers[id].stage.size, st.handlers[id].stage.seen)).(truncated := true)
  }

  function DoFinish(st: Store, cap: Cap, id: nat): Store {
    if id !in st.handlers then st
    else
      var h := st.handlers[id];
      if h.stage.Marked? || (h.stage.Wrote? && !Overflows(h, cap, h.stage.size))
      then Leave(st, id).(offset := Max(st.offset, h.stage.size + |Tail(h.stage.size, h.offset, h.data)|))
      else st
  }

  function Handle(st: Store, cap: Cap, e: Event): Store {
    match e
    case Arrive(id, start, data) => DoArrive(st, id, start, data)
    case Measure(id) => DoMeasure(st, id)
    case WritePayload(id) => DoWritePayload(st, cap, id)
    case WriteNotice(id) => DoWriteNotice(st, cap, id)
    case Mark(id) => DoMark(st, id)
    case Finish(id) => DoFinish(st, cap, id)
    case Fail(id) => Leave(st, id)
    case Restart => st.(handlers := map[])
  }

  // ---- the shape of the file ---------------------------------------------------------------

  function Notices(cap: Cap, k: nat): seq<byte> {
    if k == 0 then [] else Notices(cap, k - 1) + cap.notice
  }

  /** Where the k-th notice ends. */
  function EndOf(cap: Cap, k: nat): nat {
    cap.bytes + |Notices(cap, k)|
  }

  /** A prefix of the local log within the cap, or the first cap.bytes bytes of
    * it followed by k notices. */
  ghost predicate Shape(bytes: seq<byte>, local: seq<byte>, cap: Cap, k: nat) {
    if k == 0 then bytes <= local && |bytes| <= cap.bytes
    else cap.bytes < |local| && bytes == local[..cap.bytes] + Notices(cap, k)
  }

  lemma {:induction false} NoticeWithin(cap: Cap, j: nat, k: nat) returns (rest: seq<byte>)
    requires j < k
    ensures Notices(cap, k) == Notices(cap, j) + cap.notice + rest
  {
    if j == k - 1 {
      rest := [];
    } else {
      var r := NoticeWithin(cap, j, k - 1);
      rest := r + cap.notice;
    }
  }

  lemma EndsGrow(cap: Cap, j: nat, k: nat)
    requires j <= k
    ensures EndOf(cap, j) <= EndOf(cap, k)
  {
    if j < k { var _ := NoticeWithin(cap, j, k); }
  }

  /** What a handler that measured the file may rely on. */
  ghost predicate Planned(h: Handler, st: Store, cap: Cap, size: nat, seen: nat) {
    && Reaches(h, size) && seen <= st.notices && size <= |st.bytes|
    && (if seen == 0 then size <= cap.bytes else size == EndOf(cap, seen))
  }

  ghost predicate HandlerOk(h: Handler, st: Store, local: seq<byte>, cap: Cap) {
    && IsPiece(local, h.offset, h.data)
    && match h.stage
       case Checked => true
       case Measured(size, seen) => Planned(h, st, cap, size, seen)
       case Wrote(size, seen) => Planned(h, st, cap, size, seen) && (Overflows(h, cap, size) ==> cap.bytes <= |st.bytes|)
       case Noticed(size, seen) => Planned(h, st, cap, size, seen) && seen < st.notices
       case Marked(size, seen) => Planned(h, st, cap, size, seen) && seen < st.notices
  }

  ghost predicate StoreOk(st: Store, local: seq<byte>, cap: Cap) {
    && Shape(st.bytes, local, cap, st.notices)
    && (st.truncated ==> st.notices > 0)
    && (forall id :: id in st.handlers ==> HandlerOk(st.handlers[id], st, local, cap))
  }

  // Writes that repeat what is there, append, or extend a prefix.

  lemma WriteSame(bytes: seq<byte>, payload: seq<byte>, a: seq<byte>, b: seq<byte>)
    requires bytes == a + payload + b
    ensures WriteAt(bytes, payload, |a|) == bytes
  {
  }

  lemma WriteEnd(bytes: seq<byte>, payload: seq<byte>)
    ensures WriteAt(bytes, payload, |bytes|) == bytes + payload
  {
  }

  lemma WritePrefix(bytes: seq<byte>, local: seq<byte>, at: nat, end: nat)
    requires bytes <= local && at <= |bytes| && at <= end <= |local|
    ensures WriteAt(bytes, local[at..end], at) == local[..Max(|bytes|, end)]
  {
  }

  lemma TailIsLocal(h: Handler, local: seq<byte>, size: nat)
    requires IsPiece(local, h.offset, h.data) && Reaches(h, size)
    ensures Tail(size, h.offset, h.data) == local[size..h.offset + |h.data|]
  {
  }

  /** Where the payload ends: at the chunk's end or at the cap. */
  function PayloadEnd(h: Handler, cap: Cap, size: nat): nat {
    if h.offset + |h.data| > cap.bytes then Max(size, cap.bytes) else h.offset + |h.data|
  }

  lemma PayloadIsLocal(h: Handler, local: seq<byte>, cap: Cap, size: nat)
    requires IsPiece(local, h.offset, h.data) && Reaches(h, size)
    ensures var end := PayloadEnd(h, cap, size);
      && (Overflows(h, cap, size) <==> h.offset + |h.data| > cap.bytes)
      && size <= end <= |local| && Payload(h, cap, size) == local[size..end]
  {
    TailIsLocal(h, local, size);
    hide Tail;
    if Overflows(h, cap, size) {
      assert Payload(h, cap, size) == local[size..h.offset + |h.data|][..Max(cap.bytes - size, 0)];
    }
  }

  /** A payload planned at an earlier size still writes the agent's bytes, and
    * never past the cap. */
  lemma PayloadKeepsShape(h: Handler, st: Store, local: seq<byte>, cap: Cap, size: nat, seen: nat)
    requires Shape(st.bytes, local, cap, st.notices) && IsPiece(local, h.offset, h.data) && Planned(h, st, cap, size, seen)
    ensures var bytes := WriteAt(st.bytes, Payload(h, cap, size), size);
      && Shape(bytes, local, cap, st.notices) && |st.bytes| <= |bytes|
      && (Overflows(h, cap, size) ==> cap.bytes <= |bytes|)
  {
    PayloadIsLocal(h, local, cap, size);
    var end := PayloadEnd(h, cap, size);
    hide Payload, Overflows, WriteAt, Notices;
    if st.notices == 0 {
      WritePrefix(st.bytes, local, size, end);
    } else if seen == 0 {
      var rest := local[end..cap.bytes] + Notices(cap, st.notices);
      assert st.bytes == local[..size] + local[size..end] + rest;
      WriteSame(st.bytes, local[size..end], local[..size], rest);
    } else {
      EndsGrow(cap, 0, seen);
      WriteSame(st.bytes, [], st.bytes[..size], st.bytes[size..]);
    }
  }

  lemma Regroup(a: seq<byte>, b: seq<byte>, c: seq<byte>, d: seq<byte>)
    ensures a + (b + c + d) == (a + b) + c + d
  {
  }

  lemma NoticeRepeats(front: seq<byte>, cap: Cap, j: nat, k: nat)
    requires j < k
    ensures WriteAt(front + Notices(cap, k), cap.notice, |front| + |Notices(cap, j)|) == front + Notices(cap, k)
  {
    var rest := NoticeWithin(cap, j, k);
    hide WriteAt, Notices;
    var stub := front + Notices(cap, j);
    Regroup(front, Notices(cap, j), cap.notice, rest);
    WriteSame(front + Notices(cap, k), cap.notice, stub, rest);
  }

  lemma NoticeIsAdded(front: seq<byte>, cap: Cap, k: nat)
    ensures WriteAt(front + Notices(cap, k), cap.notice, |front| + |Notices(cap, k)|) == front + Notices(cap, k + 1)
  {
    assert Notices(cap, k + 1) == Notices(cap, k) + cap.notice;
    hide WriteAt, Notices;
    WriteEnd(front + Notices(cap, k), cap.notice);
    Regroup(front, Notices(cap, k), cap.notice, []);
  }

  lemma ShapeAtCap(bytes: seq<byte>, local: seq<byte>, cap: Cap, k: nat)
    requires Shape(bytes, local, cap, k) && cap.bytes <= |bytes|
    ensures cap.bytes <= |local| && bytes == local[..cap.bytes] + Notices(cap, k)
  {
  }

  lemma NoticePlace(h: Handler, st: Store, local: seq<byte>, cap: Cap, size: nat, seen: nat)
    requires IsPiece(local, h.offset, h.data) && Planned(h, st, cap, size, seen) && Overflows(h, cap, size)
    ensures size + |Payload(h, cap, size)| == EndOf(cap, seen) && cap.bytes < |local|
  {
    PayloadIsLocal(h, local, cap, size);
    EndsGrow(cap, 0, seen);
  }

  lemma ShapeCut(local: seq<byte>, cap: Cap, k: nat)
    requires cap.bytes < |local| && k > 0
    ensures Shape(local[..cap.bytes] + Notices(cap, k), local, cap, k)
  {
  }

  lemma NoticeWritten(local: seq<byte>, cap: Cap, j: nat, k: nat)
    requires j <= k && cap.bytes < |local|
    ensures var bytes := local[..cap.bytes] + Notices(cap, k);
      var after := WriteAt(bytes, cap.notice, EndOf(cap, j));
      Shape(after, local, cap, Max(k, j + 1)) && |bytes| <= |after|
  {
    ShapeCut(local, cap, Max(k, j + 1));
    EndsGrow(cap, k, Max(k, j + 1));
    hide WriteAt, Notices, Shape;
    if j < k {
      NoticeRepeats(local[..cap.bytes], cap, j, k);
    } else {
      NoticeIsAdded(local[..cap.bytes], cap, k);
    }
  }

  /** A notice goes after the notices its handler saw: it repeats the next one,
    * or is one more. */
  lemma NoticeKeepsShape(h: Handler, st: Store, local: seq<byte>, cap: Cap, size: nat, seen: nat)
    requires Shape(st.bytes, local, cap, st.notices) && IsPiece(local, h.offset, h.data) && Planned(h, st, cap, size, seen)
    requires Overflows(h, cap, size) && cap.bytes <= |st.bytes|
    ensures var bytes := WriteAt(st.bytes, cap.notice, size + |Payload(h, cap, size)|);
      Shape(bytes, local, cap, Max(st.notices, seen + 1)) && |st.bytes| <= |bytes|
  {
    hide Payload, Overflows, WriteAt, Notices, Shape, IsPiece, Reaches, EndOf;
    NoticePlace(h, st, local, cap, size, seen);
    ShapeAtCap(st.bytes, local, cap, st.notices);
    NoticeWritten(local, cap, seen, st.notices);
  }

  // ---- every event keeps it ----------------------------------------------------------------

  /** What the other handlers rely on survives. */
  lemma OthersStay(st: Store, next: Store, local: seq<byte>, cap: Cap, id: nat)
    requires StoreOk(st, local, cap) && |st.bytes| <= |next.bytes| && st.notices <= next.notices
    requires next.handlers.Keys <= st.handlers.Keys && forall j :: j in next.handlers && j != id ==> next.handlers[j] == st.handlers[j]
    ensures forall j :: j in next.handlers && j != id ==> HandlerOk(next.handlers[j], next, local, cap)
  {
  }

  lemma MeasureKeeps(st: Store, local: seq<byte>, cap: Cap, id: nat)
    requires StoreOk(st, local, cap)
    ensures StoreOk(DoMeasure(st, id), local, cap)
  {
    OthersStay(st, DoMeasure(st, id), local, cap, id);
  }

  lemma PayloadKeeps(st: Store, local: seq<byte>, cap: Cap, id: nat)
    requires StoreOk(st, local, cap)
    ensures StoreOk(DoWritePayload(st, cap, id), local, cap)
  {
    if id in st.handlers && st.handlers[id].stage.Measured? {
      var h := st.handlers[id];
      PayloadKeepsShape(h, st, local, cap, h.stage.size, h.stage.seen);
      OthersStay(st, DoWritePayload(st, cap, id), local, cap, id);
    }
  }

  lemma NoticeKeeps(st: Store, local: seq<byte>, cap: Cap, id: nat)
    requires StoreOk(st, local, cap)
    ensures StoreOk(DoWriteNotice(st, cap, id), local, cap)
  {
    hide Payload, WriteAt, Shape, IsPiece, Overflows, EndOf;
    if CanNotice(st, cap, id) {
      var h := st.handlers[id];
      NoticeKeepsShape(h, st, local, cap, h.stage.size, h.stage.seen);
      OthersStay(st, DoWriteNotice(st, cap, id), local, cap, id);
    }
  }

  lemma RestKeeps(st: Store, local: seq<byte>, cap: Cap, e: Event)
    requires StoreOk(st, local, cap) && (e.Mark? || e.Finish? || e.Fail? || e.Restart?)
    ensures StoreOk(Handle(st, cap, e), local, cap)
  {
    if !e.Restart? { OthersStay(st, Handle(st, cap, e), local, cap, e.h); }
  }

  lemma HandleKeeps(st: Store, local: seq<byte>, cap: Cap, e: Event)
    requires StoreOk(st, local, cap) && (e.Arrive? ==> IsPiece(local, e.start, e.data))
    ensures StoreOk(Handle(st, cap, e), local, cap)
  {
    match e
    case Arrive(id, start, data) =>
    case Measure(id) => MeasureKeeps(st, local, cap, id);
    case WritePayload(id) => PayloadKeeps(st, local, cap, id);
    case WriteNotice(id) => NoticeKeeps(st, local, cap, id);
    case _ => RestKeeps(st, local, cap, e);
  }

  /** The script writes on. */
  lemma GrowthKeeps(st: Store, local: seq<byte>, more: seq<byte>, cap: Cap)
    requires StoreOk(st, local, cap)
    ensures StoreOk(st, local + more, cap)
  {
    assert forall i: nat :: i <= |local| ==> (local + more)[..i] == local[..i];
    forall id | id in st.handlers
      ensures HandlerOk(st.handlers[id], st, local + more, cap)
    {
      var h := st.handlers[id];
      assert HandlerOk(h, st, local, cap);
      assert (local + more)[h.offset..h.offset + |h.data|] == local[h.offset..h.offset + |h.data|];
    }
  }

  /** The file is only ever extended. */
  lemma FileOnlyGrows(st: Store, local: seq<byte>, cap: Cap, e: Event)
    requires StoreOk(st, local, cap) && (e.Arrive? ==> IsPiece(local, e.start, e.data))
    ensures st.bytes <= Handle(st, cap, e).bytes && st.notices <= Handle(st, cap, e).notices
    ensures st.truncated ==> Handle(st, cap, e).truncated
  {
    HandleKeeps(st, local, cap, e);
    HandleGrows(st, local, cap, e);
    ShapesExtend(st.bytes, Handle(st, cap, e).bytes, local, cap, st.notices, Handle(st, cap, e).notices);
  }

  lemma HandleGrows(st: Store, local: seq<byte>, cap: Cap, e: Event)
    requires StoreOk(st, local, cap)
    ensures |st.bytes| <= |Handle(st, cap, e).bytes| && st.notices <= Handle(st, cap, e).notices
    ensures st.truncated ==> Handle(st, cap, e).truncated
  {
    hide Shape, EndOf, Payload, Overflows;
  }

  lemma ShapesExtend(bytes: seq<byte>, more: seq<byte>, local: seq<byte>, cap: Cap, j: nat, k: nat)
    requires Shape(bytes, local, cap, j) && Shape(more, local, cap, k) && |bytes| <= |more| && j <= k
    ensures bytes <= more
  {
    if 0 < j < k {
      var rest := NoticeWithin(cap, j, k);
      assert more == bytes + cap.notice + rest;
    }
  }

  // ---- whole histories ---------------------------------------------------------------------

  /** The agent's local log of one execution and what the controller holds. */
  datatype Upload = Upload(local: seq<byte>, store: Store)

  datatype Step = Grow(more: seq<byte>) | Handled(e: Event)

  function Then(u: Upload, cap: Cap, s: Step): Upload {
    match s
    case Grow(more) => u.(local := u.local + more)
    case Handled(e) => u.(store := Handle(u.store, cap, e))
  }

  /** Any number of chunks, late and repeated, with their handlers interleaved. */
  ghost predicate IsOverlap(us: seq<Upload>, cap: Cap, steps: seq<Step>) {
    && |us| == |steps| + 1 && us[0].store == EMPTY_STORE
    && (forall i {:trigger steps[i]} :: 0 <= i < |steps| ==> us[i + 1] == Then(us[i], cap, steps[i]) && Sound(us[i], steps[i]))
  }

  /** A chunk that arrives was cut from the local log. */
  ghost predicate Sound(u: Upload, s: Step) {
    s.Handled? && s.e.Arrive? ==> IsPiece(u.local, s.e.start, s.e.data)
  }

  lemma StepKeeps(u: Upload, cap: Cap, s: Step)
    requires StoreOk(u.store, u.local, cap) && Sound(u, s)
    ensures StoreOk(Then(u, cap, s).store, Then(u, cap, s).local, cap)
  {
    match s
    case Grow(more) => GrowthKeeps(u.store, u.local, more, cap);
    case Handled(e) => HandleKeeps(u.store, u.local, cap, e);
  }

  /** At every step of every interleaving the file is a prefix of the local log,
    * or the local log cut at the cap and followed by notices; and the flag is
    * only set over a cut log. */
  lemma {:induction false} OverlapIsFaithful(us: seq<Upload>, cap: Cap, steps: seq<Step>, i: nat)
    requires IsOverlap(us, cap, steps) && i < |us|
    ensures StoreOk(us[i].store, us[i].local, cap)
  {
    if i > 0 {
      OverlapIsFaithful(us, cap, steps, i - 1);
      StepKeeps(us[i - 1], cap, steps[i - 1]);
    }
  }

  /** A handler writes its notice although the file had one when it measured. */
  predicate WritesLate(u: Upload, cap: Cap, s: Step) {
    s.Handled? && s.e.WriteNotice? && CanNotice(u.store, cap, s.e.h) && u.store.handlers[s.e.h].stage.seen > 0
  }

  lemma NoticesNext(u: Upload, cap: Cap, s: Step)
    requires StoreOk(u.store, u.local, cap)
    ensures Then(u, cap, s).store.notices >= 2 <==> u.store.notices >= 2 || WritesLate(u, cap, s)
  {
    hide Shape, EndOf, Overflows, WriteAt;
  }

  lemma {:induction false} SecondNoticeIsLate(us: seq<Upload>, cap: Cap, steps: seq<Step>, i: nat)
    requires IsOverlap(us, cap, steps) && i < |us|
    ensures us[i].store.notices >= 2 <==> exists j :: 0 <= j < i && WritesLate(us[j], cap, steps[j])
  {
    hide StoreOk, WritesLate, Handle, Sound;
    if i > 0 {
      SecondNoticeIsLate(us, cap, steps, i - 1);
      OverlapIsFaithful(us, cap, steps, i - 1);
      NoticesNext(us[i - 1], cap, steps[i - 1]);
    }
  }

  /** Handler id was let in before the log was marked, at step k. */
  ghost predicate LetIn(us: seq<Upload>, steps: seq<Step>, h: Handler, id: nat, k: nat) {
    k < |steps| < |us| && steps[k] == Handled(Arrive(id, h.offset, h.data)) && !us[k].store.truncated
  }

  /** It measured the file at step m. */
  ghost predicate MeasuredAt(us: seq<Upload>, steps: seq<Step>, h: Handler, id: nat, m: nat) {
    && m < |steps| < |us| && steps[m] == Handled(Measure(id)) && !h.stage.Checked?
    && h.stage.size == |us[m].store.bytes| && h.stage.seen == us[m].store.notices && Reaches(h, h.stage.size)
  }

  lemma HandlerBefore(st: Store, cap: Cap, e: Event, id: nat)
    requires id in Handle(st, cap, e).handlers
    ensures var h := Handle(st, cap, e).handlers[id];
      || (h.stage.Checked? && e == Arrive(id, h.offset, h.data) && !st.truncated)
      || (&& id in st.handlers && st.handlers[id].(stage := h.stage) == h
          && if st.handlers[id].stage.Checked? && !h.stage.Checked?
             then e == Measure(id) && h.stage == Measured(|st.bytes|, st.notices) && Reaches(h, |st.bytes|)
             else h.stage.Checked? == st.handlers[id].stage.Checked?
                  && (!h.stage.Checked? ==> h.stage.size == st.handlers[id].stage.size && h.stage.seen == st.handlers[id].stage.seen))
  {
    hide WriteAt, Payload, Overflows;
  }

  /** Every handler under way was let in at some step and, past its check,
    * measured at a later one. */
  lemma {:induction false} HandlerHistory(us: seq<Upload>, cap: Cap, steps: seq<Step>, i: nat, id: nat) returns (k: nat, m: nat)
    requires IsOverlap(us, cap, steps) && i < |us| && id in us[i].store.handlers
    ensures k < i && LetIn(us, steps, us[i].store.handlers[id], id, k)
    ensures !us[i].store.handlers[id].stage.Checked? ==> k < m < i && MeasuredAt(us, steps, us[i].store.handlers[id], id, m)
  {
    var h := us[i].store.handlers[id];
    var s := steps[i - 1];
    if s.Handled? { HandlerBefore(us[i - 1].store, cap, s.e, id); }
    hide Handle, Reaches;
    if s.Handled? && h.stage.Checked? && s.e == Arrive(id, h.offset, h.data) && !us[i - 1].store.truncated {
      k, m := i - 1, 0;
    } else {
      k, m := HandlerHistory(us, cap, steps, i - 1, id);
      if us[i - 1].store.handlers[id].stage.Checked? { m := i - 1; }
    }
  }

  /** A request overtaken by a truncation: let in at step k before the log was
    * marked, it measured at step m a file that already had a notice, its chunk
    * reached past that file's end, and at step j it wrote its own notice. */
  ghost predicate Overtaken(us: seq<Upload>, cap: Cap, steps: seq<Step>, k: nat, m: nat, j: nat) {
    && k < m < j < |steps| < |us| && WritesLate(us[j], cap, steps[j])
    && LetIn(us, steps, us[j].store.handlers[steps[j].e.h], steps[j].e.h, k)
    && MeasuredAt(us, steps, us[j].store.handlers[steps[j].e.h], steps[j].e.h, m) && us[m].store.notices > 0
  }

  /** The file gets more than one notice exactly when some request was overtaken
    * by a truncation. */
  lemma SecondNoticeExactly(us: seq<Upload>, cap: Cap, steps: seq<Step>, i: nat)
    requires IsOverlap(us, cap, steps) && i < |us|
    ensures us[i].store.notices >= 2 <==> exists k, m, j: nat :: j < i && Overtaken(us, cap, steps, k, m, j)
  {
    SecondNoticeIsLate(us, cap, steps, i);
    if us[i].store.notices >= 2 {
      var j :| 0 <= j < i && WritesLate(us[j], cap, steps[j]);
      var k, m := HandlerHistory(us, cap, steps, j, steps[j].e.h);
      assert Overtaken(us, cap, steps, k, m, j);
    }
  }

  /** The steps up to i that wrote a notice. */
  function NoticeWrites(us: seq<Upload>, cap: Cap, steps: seq<Step>, i: nat): nat
    requires i <= |steps| <= |us|
  {
    if i == 0 then 0
    else
      var s := steps[i - 1];
      NoticeWrites(us, cap, steps, i - 1) + if s.Handled? && s.e.WriteNotice? && CanNotice(us[i - 1].store, cap, s.e.h) then 1 else 0
  }

  /** So two requests can leave no more than two. */
  lemma {:induction false} NoticesAreWritten(us: seq<Upload>, cap: Cap, steps: seq<Step>, i: nat)
    requires IsOverlap(us, cap, steps) && i < |us|
    ensures us[i].store.notices <= NoticeWrites(us, cap, steps, i)
  {
    hide Handle, CanNotice, StoreOk, Sound;
    if i > 0 {
      NoticesAreWritten(us, cap, steps, i - 1);
      OverlapIsFaithful(us, cap, steps, i - 1);
      if steps[i - 1].Handled? { OneNoticeMore(us[i - 1].store, us[i - 1].local, cap, steps[i - 1]); }
    }
  }

  lemma OneNoticeMore(st: Store, local: seq<byte>, cap: Cap, s: Step)
    requires StoreOk(st, local, cap) && s.Handled?
    ensures var more := if s.e.WriteNotice? && CanNotice(st, cap, s.e.h) then 1 else 0;
      Handle(st, cap, s.e).notices <= st.notices + more
  {
    hide Shape, EndOf, Overflows, WriteAt;
  }

  // ---- one request at a time ---------------------------------------------------------------

  function LogOf(st: Store): Log {
    Log(st.bytes, st.truncated, st.offset)
  }

  function Alone(st: Store, cap: Cap, id: nat, start: nat, data: seq<byte>): Store {
    var measured := DoMeasure(DoArrive(st, id, start, data), id);
    DoFinish(DoMark(DoWriteNotice(DoWritePayload(measured, cap, id), cap, id), id), cap, id)
  }

  /** The payload and the notice go to the end of the file. */
  lemma AppendsAtEnd(bytes: seq<byte>, payload: seq<byte>, notice: seq<byte>)
    ensures WriteAt(bytes, payload, |bytes|) == bytes + payload
    ensures WriteAt(bytes + payload, notice, |bytes| + |payload|) == bytes + payload + notice
  {
    WriteEnd(bytes, payload);
    WriteEnd(bytes + payload, notice);
  }

  lemma AppendCases(log: Log, cap: Cap, start: nat, data: seq<byte>)
    ensures var h := Handler(start, data, Checked);
      var size := |log.bytes|;
      var acked := size + |Tail(size, start, data)|;
      Append(log, cap, start, data).log ==
        if log.truncated || !Reaches(h, size) then log
        else if Overflows(h, cap, size) then Log(log.bytes + Payload(h, cap, size) + cap.notice, true, Max(log.offset, acked))
        else Log(log.bytes + Payload(h, cap, size), false, Max(log.offset, acked))
  {
  }

  lemma SameChunk(h: Handler, cap: Cap, size: nat, stage: Stage)
    ensures Payload(h.(stage := stage), cap, size) == Payload(h, cap, size)
    ensures Overflows(h.(stage := stage), cap, size) <==> Overflows(h, cap, size)
  {
  }

  /** A handler that nothing interrupts does what AppendLog says. */
  lemma AloneIsAppend(st: Store, cap: Cap, id: nat, start: nat, data: seq<byte>)
    requires id !in st.handlers
    ensures LogOf(Alone(st, cap, id, start, data)) == Append(LogOf(st), cap, start, data).log
    ensures Alone(st, cap, id, start, data).handlers == st.handlers
  {
    var h := Handler(start, data, Checked);
    var size := |st.bytes|;
    AppendCases(LogOf(st), cap, start, data);
    hide Append, WriteAt;
    AppendsAtEnd(st.bytes, Payload(h, cap, size), cap.notice);
    forall stage | true
      ensures Payload(h.(stage := stage), cap, size) == Payload(h, cap, size)
      ensures Overflows(h.(stage := stage), cap, size) <==> Overflows(h, cap, size)
    {
      SameChunk(h, cap, size, stage);
    }
    hide Payload, Overflows, Tail;
  }

  // ---- a second notice does happen ------------------------------------------------------------

  /** Handler id measures, writes its payload and its notice. */
  function UpToNotice(st: Store, cap: Cap, id: nat): Store {
    DoWriteNotice(DoWritePayload(DoMeasure(st, id), cap, id), cap, id)
  }

  /** For every cap, notice and chunk that reaches past both: the same chunk is
    * handled twice at once, and the second handler measures between the first
    * one's notice and its mark. */
  lemma SecondNoticeHappens(cap: Cap, data: seq<byte>)
    requires |data| > cap.bytes + |cap.notice|
    ensures var both := DoArrive(DoArrive(EMPTY_STORE, 0, 0, data), 1, 0, data);
      var once := UpToNotice(both, cap, 0);
      var twice := UpToNotice(once, cap, 1);
      && once.bytes == data[..cap.bytes] + cap.notice && once.notices == 1
      && twice.bytes == data[..cap.bytes] + cap.notice + cap.notice && twice.notices == 2
  {
    var both := DoArrive(DoArrive(EMPTY_STORE, 0, 0, data), 1, 0, data);
    FirstHandler(cap, data, both);
    SecondHandler(cap, data, UpToNotice(both, cap, 0), data[..cap.bytes]);
  }

  lemma FirstHandler(cap: Cap, data: seq<byte>, st: Store)
    requires st == EMPTY_STORE.(handlers := map[0 := Handler(0, data, Checked), 1 := Handler(0, data, Checked)])
    requires |data| > cap.bytes
    ensures var next := UpToNotice(st, cap, 0);
      && next.bytes == data[..cap.bytes] + cap.notice && next.notices == 1
      && 1 in next.handlers && next.handlers[1] == Handler(0, data, Checked)
  {
    forall stage | true
      ensures Payload(Handler(0, data, stage), cap, 0) == data[..cap.bytes] && Overflows(Handler(0, data, stage), cap, 0)
    {
      WholePayload(cap, data, stage);
    }
    AppendsAtEnd([], data[..cap.bytes], cap.notice);
    assert [] + data[..cap.bytes] == data[..cap.bytes];
    hide WriteAt, Payload, Overflows;
  }

  lemma WholePayload(cap: Cap, data: seq<byte>, stage: Stage)
    requires |data| > cap.bytes
    ensures Payload(Handler(0, data, stage), cap, 0) == data[..cap.bytes] && Overflows(Handler(0, data, stage), cap, 0)
  {
  }

  lemma SecondHandler(cap: Cap, data: seq<byte>, st: Store, first: seq<byte>)
    requires st.bytes == first + cap.notice && st.notices == 1 && |first| == cap.bytes && |data| > |st.bytes|
    requires 1 in st.handlers && st.handlers[1] == Handler(0, data, Checked)
    ensures UpToNotice(st, cap, 1).bytes == st.bytes + cap.notice && UpToNotice(st, cap, 1).notices == 2
  {
    AppendsAtEnd(st.bytes, [], cap.notice);
    assert st.bytes + [] == st.bytes;
  }

  // ---- what a confirmed result means -----------------------------------------------------------

  /** SubmitResult's test. */
  predicate Confirms(st: Store, logLength: int) {
    st.truncated || |st.bytes| == logLength
  }

  /** The stored log is the whole local log, or was cut at the cap. */
  ghost predicate Settled(st: Store, local: seq<byte>) {
    st.notices > 0 || st.bytes == local
  }

  lemma ConfirmedIsSettled(st: Store, local: seq<byte>, cap: Cap)
    requires StoreOk(st, local, cap) && Confirms(st, |local|)
    ensures Settled(st, local)
  {
  }

  /** No handler still under way, and no chunk still to come, changes that. */
  lemma SettledStays(st: Store, local: seq<byte>, cap: Cap, e: Event)
    requires StoreOk(st, local, cap) && Settled(st, local) && (e.Arrive? ==> IsPiece(local, e.start, e.data))
    ensures Settled(Handle(st, cap, e), local)
    ensures st.notices == 0 ==> Handle(st, cap, e).bytes == st.bytes
  {
    FileOnlyGrows(st, local, cap, e);
    HandleKeeps(st, local, cap, e);
    if st.notices == 0 && e.WriteNotice? && CanNotice(st, cap, e.h) {
      var h := st.handlers[e.h];
      NoticePlace(h, st, local, cap, h.stage.size, h.stage.seen);
      assert false;
    }
  }
}
