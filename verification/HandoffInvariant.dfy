/** The invariant of the handoff protocol.

    Books concerns the queue, the ledger of admitted works and their futures. Gate concerns who
    may use the GPU, and mentions the ledger only through the counters. */
module HandoffInvariant {
  import opened Basics
  import opened Handoff

  // ---------------------------------------------------------------- sums over the queue

  function Sum(q: seq<nat>, works: seq<Work>, f: Work -> int): int
    requires forall i :: 0 <= i < |q| ==> q[i] < |works|
  {
    if q == [] then 0 else f(works[q[0]]) + Sum(q[1..], works, f)
  }

  lemma {:induction false} SumConcat(a: seq<nat>, b: seq<nat>, works: seq<Work>, f: Work -> int)
    requires forall i :: 0 <= i < |a| ==> a[i] < |works|
    requires forall i :: 0 <= i < |b| ==> b[i] < |works|
    ensures Sum(a + b, works, f) == Sum(a, works, f) + Sum(b, works, f)
  {
    if a == [] {
      assert a + b == b;
    } else {
      assert (a + b)[1..] == a[1..] + b;
      SumConcat(a[1..], b, works, f);
    }
  }

  lemma {:induction false} SumAgrees(q: seq<nat>, before: seq<Work>, after: seq<Work>, f: Work -> int)
    requires forall i :: 0 <= i < |q| ==> q[i] < |before| && q[i] < |after|
    requires forall i :: 0 <= i < |q| ==> f(before[q[i]]) == f(after[q[i]])
    ensures Sum(q, before, f) == Sum(q, after, f)
  {
    if q != [] {
      SumAgrees(q[1..], before, after, f);
    }
  }

  lemma SumWithout(q: seq<nat>, k: nat, works: seq<Work>, f: Work -> int)
    requires k < |q|
    requires forall i :: 0 <= i < |q| ==> q[i] < |works|
    ensures Sum(q, works, f) == Sum(q[..k] + q[k + 1..], works, f) + f(works[q[k]])
  {
    assert q == q[..k] + q[k..];
    SumConcat(q[..k], q[k..], works, f);
    assert q[k..][1..] == q[k + 1..];
    SumConcat(q[..k], q[k + 1..], works, f);
  }

  // ---------------------------------------------------------------- granted leases

  function GrantUnit(w: Work): int { if w.job.Chat? && w.job.granted then 1 else 0 }

  function Granted(works: seq<Work>): nat {
    if works == [] then 0 else Granted(works[..|works| - 1]) + GrantUnit(works[|works| - 1])
  }

  lemma {:induction false} GrantedPut(works: seq<Work>, r: nat, w: Work)
    requires r < |works|
    ensures Granted(works[r := w]) == Granted(works) - GrantUnit(works[r]) + GrantUnit(w)
  {
    var n := |works| - 1;
    if r == n {
      assert works[r := w][..n] == works[..n];
    } else {
      assert works[r := w][..n] == works[..n][r := w];
      GrantedPut(works[..n], r, w);
    }
  }

  lemma GrantedAppend(works: seq<Work>, w: Work)
    ensures Granted(works + [w]) == Granted(works) + GrantUnit(w)
  {
    assert (works + [w])[..|works|] == works;
  }

  lemma {:induction false} GrantedPositive(works: seq<Work>, r: nat)
    requires r < |works|
    ensures GrantUnit(works[r]) <= Granted(works)
  {
    if r < |works| - 1 {
      GrantedPositive(works[..|works| - 1], r);
    }
  }

  // ---------------------------------------------------------------- books

  predicate Settled(f: Option<Future>) {
    f.Some? ==> !f.value.Pending?
  }

  predicate Unsettled(f: Option<Future>) {
    f.Some? ==> f.value.Pending?
  }

  /** The life of one admitted work. */
  predicate WorkOk(w: Work, r: nat, queued: bool, current: bool, abandoned: bool) {
    && w.sequence == r + 1
    && match w.job
       case Chat(ready, granted, _) =>
         && (granted <==> ready.Value? && !w.caller.Left?)
         && (w.caller.Entered? ==> ready.Value?)
         && (w.cancelled ==> w.caller.Left?)
         && (ready.Pending? && w.caller.Left? ==> w.cancelled)
         && (queued ==> ready.Pending? && w.caller.Waiting?)
         && (current ==> ready.Pending?)
         && (ready.Pending? ==> queued || current || w.cancelled || abandoned)
       case Image(_, submitted, completion, _) =>
         && (queued ==> submitted.Pending? && !w.cancelled)
         && (queued || current ==> Unsettled(completion))
         && (!queued && !current ==> !submitted.Pending? && Settled(completion))
  }

  predicate LedgerOk(works: seq<Work>, queue: seq<nat>, current: Option<nat>, abandoned: set<nat>) {
    forall r :: 0 <= r < |works| ==>
      WorkOk(works[r], r, r in queue, current == Some(r), r in abandoned)
  }

  predicate QueueOk(works: seq<Work>, queue: seq<nat>, dispatched: seq<nat>,
                    current: Option<nat>, abandoned: set<nat>) {
    && Ordered(queue)
    && Ordered(dispatched)
    && (forall i :: 0 <= i < |queue| ==> queue[i] < |works|)
    && (forall i :: 0 <= i < |dispatched| ==> dispatched[i] < |works|)
    && (forall i, j :: 0 <= i < |dispatched| && 0 <= j < |queue| ==> dispatched[i] < queue[j])
    && (current.Some? ==> |dispatched| > 0 && dispatched[|dispatched| - 1] == current.value)
    && (forall r :: r in abandoned ==> r in dispatched)
  }

  predicate AccountsOk(works: seq<Work>, queue: seq<nat>, chats: int, images: int, bytes: int,
                       cfg: Config) {
    && (forall i :: 0 <= i < |queue| ==> queue[i] < |works|)
    && chats == Sum(queue, works, ChatUnit)
    && images == Sum(queue, works, ImageUnit)
    && bytes == Sum(queue, works, Size)
    && images <= cfg.maxImages
    && bytes <= cfg.maxBytes
  }

  predicate LeasesOk(works: seq<Work>, activeChats: int, restorePoint: Option<Point>, cfg: Config) {
    && activeChats == Granted(works)
    && (forall r :: 0 <= r < |works| && works[r].job.Chat? && works[r].job.target.Some? ==>
          && cfg.Targeted()
          && (works[r].job.granted ==> works[r].job.target == restorePoint))
  }

  /** Works admitted together are neighbours, and every batch is still where it was admitted. */
  predicate GroupsOk(works: seq<Work>, batches: seq<Batch>) {
    && (forall r, k {:trigger works[r], works[k]} ::
          0 <= r < |works| && works[r].job.Image? && works[r].job.group <= k <= r ==>
            works[k].job.Image? && works[k].job.group == works[r].job.group)
    && (forall r :: 0 <= r < |works| && works[r].job.Image? ==> works[r].job.group <= r)
    && (forall b :: 0 <= b < |batches| ==> BatchOk(works, batches[b]))
  }

  predicate BatchOk(works: seq<Work>, b: Batch) {
    && b.first + b.count <= |works|
    && forall r :: b.first <= r < b.first + b.count ==>
         works[r].job.Image? && works[r].job.completion.Some? && works[r].job.group == b.first
  }

  predicate BooksFor(s: State, current: Option<nat>) {
    && s.sequence == |s.works|
    && LedgerOk(s.works, s.queue, current, s.seen.abandoned)
    && QueueOk(s.works, s.queue, s.seen.dispatched, current, s.seen.abandoned)
    && AccountsOk(s.works, s.queue, s.waitingChats, s.waitingImages, s.queuedBytes, s.cfg)
    && LeasesOk(s.works, s.activeChats, s.restorePoint, s.cfg)
    && GroupsOk(s.works, s.seen.batches)
    && (s.seen.abandoned != {} ==> s.closing && s.cfg.Serialised())
  }

  /** What is known of the work in hand: a chat without target never reaches the targeted
      acquisition, a grant is for the restore point the chat asked for, and an image whose prompt
      runs has its submission answered. */
  predicate InHand(works: seq<Work>, pc: Pc, point: Option<Point>) {
    Current(pc).Some? && pc.r < |works| ==>
      var job := works[pc.r].job;
      if job.Chat? then
        && (pc.Granting? ==> job.target in {None, point})
        && (pc.AcquiringTarget? ==> job.target.Some?)
        && (pc.RouterReleasing? || pc.RouterAcquiring? || pc.RestoreObserving? || pc.Acquiring? ==>
              job.target.None?)
      else
        pc.AwaitingPrompt? ==> !job.submitted.Pending?
  }

  predicate Books(s: State) {
    BooksFor(s, Current(s.pc)) && InHand(s.works, s.pc, s.restorePoint)
  }

  // ---------------------------------------------------------------- gate

  /** Phases that claim nothing about the owner, and in which no new lease is handed out. */
  predicate Neutral(p: Phase) {
    p !in {AwaitingRequest, LlmReady, LlmReserved, ComfyReady, ImageActive}
  }

  predicate Quiet(s: State) {
    s.activeChats == 0 && s.activeMetadata == 0 && Neutral(s.phase)
  }

  /** Configurations in which an unknown owner is always resolved before ComfyUI is granted. */
  predicate Guarded(cfg: Config) {
    cfg.router || cfg.Observes()
  }

  predicate PhaseAgrees(owner: Owner, phase: Phase) {
    && (phase in {LlmReady, LlmReserved} ==> owner == LLM)
    && (phase in {ComfyReady, ImageActive} ==> owner == COMFY)
    && (phase == AwaitingRequest ==> owner == UNKNOWN)
  }

  predicate Ownership(s: State) {
    && (s.owner == LLM ==> s.restorePoint.Some? && s.seen.held)
    && (s.activeChats > 0 ==> s.owner == LLM)
    && (s.seen.dirty ==> s.owner == COMFY)
    && (Guarded(s.cfg) && s.seen.held ==> s.owner != COMFY)
    && PhaseAgrees(s.owner, s.phase)
    && (!s.cfg.Serialised() && s.owner == LLM && s.recoverable.Some? ==> s.closing)
    && 0 <= s.activeChats
    && (s.cfg.Serialised() ==> s.activeChats <= 1)
    && s.activeMetadata == s.seen.metadataHeld
    && s.activeControls == s.seen.controlsHeld
  }

  predicate Shutdown(s: State) {
    && (s.closing <==> s.closer != Open)
    && (s.closer == Drained ==> s.queue == [])
    && (s.fatal.Some? ==> s.pc.Dead? && s.queue == [])
    && (s.pc.Dead? ==> s.fatal.Some? || s.closing)
  }

  /** What a chat's dispatch knows while it prepares the GPU. */
  predicate Preparing(s: State) {
    && s.activeChats == 0
    && (s.cfg.Serialised() ==> s.activeMetadata == 0)
  }

  /** What is known at each suspension point of the dispatcher. */
  predicate At(s: State) {
    match s.pc
    case Idle => true
    case ChatEntry(_) => s.cfg.Serialised()
    case ChatDrain(_) => s.cfg.Serialised()
    case ControlEntry(_) =>
      Preparing(s) && (s.cfg.Serialised() ==> Neutral(s.phase))
      && (!s.cfg.Serialised() ==> s.owner != LLM)
    case ControlDrain(_) =>
      Preparing(s) && Neutral(s.phase) && (!s.cfg.Serialised() ==> s.owner != LLM)
    case Freeing(_) =>
      && Preparing(s) && Neutral(s.phase) && (!s.cfg.Serialised() ==> s.owner != LLM)
      && s.activeControls == 0
    case RestoreValidating(_) => Preparing(s) && Neutral(s.phase) && s.owner == UNKNOWN
    case AcquiringTarget(_) => Quiet(s) && s.owner == UNKNOWN && s.seen.held
    case RouterReleasing(_) =>
      Quiet(s) && s.owner == UNKNOWN && s.restorePoint.Some? && s.cfg.router
    case RouterAcquiring(_) => Quiet(s) && s.owner == UNKNOWN && s.seen.held && s.cfg.router
    case RestoreObserving(_) => Preparing(s) && Neutral(s.phase) && s.owner == UNKNOWN && !s.cfg.router
    case Acquiring(_) =>
      Preparing(s) && Neutral(s.phase) && s.owner == UNKNOWN && s.seen.held && !s.cfg.router
    case RestoreMarking(_, _) =>
      s.activeChats == 0 && Neutral(s.phase) && (!s.cfg.Serialised() ==> s.owner != LLM)
    case Granting(_) =>
      && s.owner == LLM && (s.cfg.Serialised() ==> s.activeChats == 0)
      && (s.recoverable.Some? ==> s.closing)
    case DrainEntry(_) => s.owner != COMFY
    case Draining(_) => s.owner != COMFY && Neutral(s.phase)
    case ActivateValidating(_) =>
      Quiet(s) && s.owner != COMFY && (!s.cfg.router ==> s.cfg.Observes() && s.owner == UNKNOWN)
    case ActivateAcquiring(_) => Quiet(s) && s.cfg.router && s.owner == UNKNOWN
    case ActivateObserving(_) => Quiet(s) && s.owner == UNKNOWN && !s.cfg.router && s.cfg.Observes()
    case Releasing(_) => Quiet(s) && s.owner == UNKNOWN && s.restorePoint.Some?
    case Submitting(_) => s.owner == COMFY
    case AwaitingPrompt(_) => s.owner == COMFY
    case ImageMarking(_) => s.owner == UNKNOWN
    case Interrupting(_) => s.owner == COMFY && s.closing
    case MarkingFatal => true
    case Dead => true
  }

  predicate Gate(s: State) {
    Ownership(s) && Shutdown(s) && At(s)
  }

  predicate Inv(s: State) {
    Awake(s) && Books(s) && Gate(s)
  }

  /** The parts of a state that Books reads. */
  predicate SameBooks(s: State, t: State) {
    && s.cfg == t.cfg
    && s.queue == t.queue && s.works == t.works && s.sequence == t.sequence
    && s.waitingChats == t.waitingChats && s.waitingImages == t.waitingImages
    && s.queuedBytes == t.queuedBytes
    && s.activeChats == t.activeChats
    && s.seen.dispatched == t.seen.dispatched && s.seen.abandoned == t.seen.abandoned
    && s.seen.batches == t.seen.batches
    && (s.closing ==> t.closing)
  }
}
