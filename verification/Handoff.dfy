/** The handoff protocol on values.

    A State holds the coordinator's fields, the point where its single dispatcher task is
    suspended, and what an outside observer can see of the GPU. Every function from State to
    State below is one stretch of code between two suspension points. Acquiring the condition
    is treated as a suspension point too, so more interleavings are covered than an
    uncontended lock would show. */
module Handoff {
  import opened Basics

  datatype Owner = LLM | COMFY | UNKNOWN

  datatype Phase =
    | AwaitingRequest | LlmReady | LlmReserved | DrainingLlm | UnloadingLlm
    | ComfyReady | ImageActive | CleaningComfy | ReloadingLlm | Error | ShuttingDown

  /** Other stands for every backend outside the broker's request-driven list, such as Ollama. */
  datatype Kind = KoboldCpp | TabbyApi | Prism | Strata | All | Other

  datatype Config = Config(kind: Kind, router: bool, maxBody: nat, maxImages: nat, maxBytes: nat)
  {
    /** Chats run one at a time, each through its complete response. */
    predicate Serialised() { router || kind in {Prism, All, Strata} }

    /** The service passes an explicit target with every chat of these kinds, and only these. */
    predicate Targeted() { !router && kind in {Prism, All, Strata} }

    /** An unknown owner is resolved by observing the backend before ComfyUI is granted. */
    predicate Observes() { kind != Other }

    /** A granted chat is a reservation for the native router, not a claim of readiness. */
    predicate Reserves() { router || kind == All }
  }

  datatype Reason =
    | BrokerClosing | InitializationFailed | DispatcherFailed | CleanupUnconfirmed
    | OwnershipUnconfirmed | NotReady | InsufficientVram | RouterUnreliable
    | ImageCancelled | BatchCancelled | HandoffFailed

  datatype Future = Pending | Value | Failure(reason: Reason)

  datatype Caller = Waiting | Entered | Left

  /** What is specific to a chat and to an image. group is the reference of the first image
      admitted together with this one. */
  datatype Job =
    | Chat(ready: Future, granted: bool, target: Option<Point>)
    | Image(bytes: nat, submitted: Future, completion: Option<Future>, group: nat)

  /** A queued record. caller is the position of the client that awaits it. */
  datatype Work = Work(sequence: nat, cancelled: bool, caller: Caller, job: Job)

  datatype Batch = Batch(first: nat, count: nat, open: bool)

  /** Where the dispatcher is suspended, with the reference of the work it handles. */
  datatype Pc =
    | Idle
    | ChatEntry(r: nat) | ChatDrain(r: nat)
    | ControlEntry(r: nat) | ControlDrain(r: nat) | Freeing(r: nat)
    | RestoreValidating(r: nat) | AcquiringTarget(r: nat)
    | RouterReleasing(r: nat) | RouterAcquiring(r: nat)
    | RestoreObserving(r: nat) | Acquiring(r: nat)
    | RestoreMarking(r: nat, reason: Reason) | Granting(r: nat)
    | DrainEntry(r: nat) | Draining(r: nat)
    | ActivateValidating(r: nat) | ActivateAcquiring(r: nat) | ActivateObserving(r: nat)
    | Releasing(r: nat)
    | Submitting(r: nat) | AwaitingPrompt(r: nat) | ImageMarking(r: nat) | Interrupting(r: nat)
    | MarkingFatal | Dead

  datatype Closer = Open | Begun | Drained

  /** What an observer outside the broker can tell: ComfyUI may hold models, the LLM may hold
      GPU memory, how many leases of each kind clients hold, the works taken off the queue in
      order, and the chats dropped by the drain loop's return during shutdown. */
  datatype Observed = Observed(
    dirty: bool, held: bool, metadataHeld: nat, controlsHeld: nat,
    dispatched: seq<nat>, abandoned: set<nat>, batches: seq<Batch>)

  datatype State = State(
    cfg: Config,
    restorePoint: Option<Point>,
    queue: seq<nat>,
    works: seq<Work>,
    sequence: nat,
    activeChats: int,
    activeMetadata: int,
    waitingChats: int,
    waitingImages: int,
    queuedBytes: int,
    activeControls: int,
    fatal: Option<Reason>,
    recoverable: Option<Reason>,
    owner: Owner,
    phase: Phase,
    closing: bool,
    controlValidated: bool,
    pc: Pc,
    closer: Closer,
    seen: Observed)

  // ---------------------------------------------------------------- accounting

  function ChatUnit(w: Work): int { if w.job.Chat? then 1 else 0 }

  function ImageUnit(w: Work): int { if w.job.Image? then 1 else 0 }

  function Size(w: Work): int { if w.job.Image? then w.job.bytes else 0 }

  function AppendQueued(s: State, w: Work): State {
    s.(queue := s.queue + [|s.works|], works := s.works + [w], sequence := s.sequence + 1,
       waitingChats := s.waitingChats + ChatUnit(w),
       waitingImages := s.waitingImages + ImageUnit(w),
       queuedBytes := s.queuedBytes + Size(w))
  }

  function ReleaseAccounting(s: State, w: Work): State {
    s.(waitingChats := s.waitingChats - ChatUnit(w),
       waitingImages := s.waitingImages - ImageUnit(w),
       queuedBytes := s.queuedBytes - Size(w))
  }

  /** Position of the first queued work equal to w, as deque.remove compares records by value. */
  function IndexOf(queue: seq<nat>, works: seq<Work>, w: Work): (i: nat)
    requires forall i :: 0 <= i < |queue| ==> queue[i] < |works|
    ensures i <= |queue|
    ensures i < |queue| ==> works[queue[i]] == w
    ensures forall j :: 0 <= j < i ==> works[queue[j]] != w
  {
    if queue == [] then 0
    else if works[queue[0]] == w then 0
    else 1 + IndexOf(queue[1..], works, w)
  }

  predicate Allocated(s: State) {
    forall i :: 0 <= i < |s.queue| ==> s.queue[i] < |s.works|
  }

  function RemoveQueued(s: State, r: nat): State
    requires r < |s.works| && Allocated(s)
  {
    var i := IndexOf(s.queue, s.works, s.works[r]);
    if i == |s.queue| then s
    else ReleaseAccounting(s.(queue := s.queue[..i] + s.queue[i + 1..]), s.works[s.queue[i]])
  }

  function Put(s: State, r: nat, w: Work): State
    requires r < |s.works|
  {
    s.(works := s.works[r := w])
  }

  // ---------------------------------------------------------------- outcomes

  function Settle(f: Future, outcome: Future): Future {
    if f.Pending? then outcome else f
  }

  function Answered(w: Work, reason: Reason): Work {
    match w.job
    case Chat(ready, _, _) => w.(job := w.job.(ready := Settle(ready, Failure(reason))))
    case Image(_, submitted, completion, _) =>
      w.(job := w.job.(submitted := Settle(submitted, Failure(reason)),
                       completion := Notify(completion, Failure(reason))))
  }

  function Notify(f: Option<Future>, outcome: Future): Option<Future> {
    if f.Some? then Some(Settle(f.value, outcome)) else None
  }

  function Resolve(s: State, r: nat, reason: Reason): State
    requires r < |s.works|
  {
    Put(s, r, Answered(s.works[r], reason))
  }

  function FailQueued(s: State, reason: Reason): State
    requires Allocated(s)
    decreases |s.queue|
  {
    if s.queue == [] then s
    else
      var r := s.queue[0];
      FailQueued(Resolve(ReleaseAccounting(s.(queue := s.queue[1..]), s.works[r]), r, reason),
                 reason)
  }

  // ---------------------------------------------------------------- clients

  predicate Refuses(s: State) {
    s.closing || s.fatal.Some?
  }

  function AdmitChat(s: State, target: Option<Point>): State {
    if Refuses(s) then s
    else AppendQueued(s, Work(s.sequence + 1, false, Waiting, Chat(Pending, false, target)))
  }

  function EnterChat(s: State, r: nat): State
    requires r < |s.works| && s.works[r].job.Chat?
  {
    Put(s, r, s.works[r].(caller := Entered))
  }

  /** The closing section of a chat lease, on every way out of it. */
  function LeaveChat(s: State, r: nat): State
    requires r < |s.works| && s.works[r].job.Chat? && Allocated(s)
  {
    var w := s.works[r];
    var s1 := if w.caller.Entered? then s
              else RemoveQueued(Put(s, r, w.(cancelled := true)), r);
    var w1 := s1.works[r];
    if w1.job.granted
    then Put(s1, r, w1.(caller := Left, job := w1.job.(granted := false)))
         .(activeChats := s1.activeChats - 1)
    else Put(s1, r, w1.(caller := Left))
  }

  function Total(sizes: seq<nat>): nat {
    if sizes == [] then 0 else sizes[0] + Total(sizes[1..])
  }

  predicate Fits(s: State, sizes: seq<nat>) {
    && (forall i :: 0 <= i < |sizes| ==> sizes[i] <= s.cfg.maxBody)
    && s.waitingImages + |sizes| <= s.cfg.maxImages
    && s.queuedBytes + Total(sizes) <= s.cfg.maxBytes
  }

  function AppendImages(s: State, sizes: seq<nat>, completion: Option<Future>, group: nat): State
    decreases |sizes|
  {
    if sizes == [] then s
    else AppendImages(
      AppendQueued(s, Work(s.sequence + 1, false, Waiting,
                           Image(sizes[0], Pending, completion, group))),
      sizes[1..], completion, group)
  }

  function SubmitImage(s: State, size: nat, notifies: bool): State {
    if Refuses(s) || !Fits(s, [size]) then s
    else AppendImages(s, [size], if notifies then Some(Pending) else None, |s.works|)
  }

  function SubmitBatch(s: State, sizes: seq<nat>): State {
    if sizes == [] || Refuses(s) || !Fits(s, sizes) then s
    else
      AppendImages(s, sizes, Some(Pending), |s.works|)
      .(seen := s.seen.(batches := s.seen.batches + [Batch(|s.works|, |sizes|, true)]))
  }

  /** Cancel one image: it is answered here only if it was still queued. */
  function CancelImage(s: State, r: nat, reason: Reason): State
    requires r < |s.works| && s.works[r].job.Image? && Allocated(s)
  {
    var s1 := Put(s, r, s.works[r].(cancelled := true));
    var s2 := RemoveQueued(s1, r);
    if s2.queue == s1.queue then s2 else Resolve(s2, r, reason)
  }

  function LeaveImage(s: State, r: nat, completed: bool): State
    requires r < |s.works| && s.works[r].job.Image? && Allocated(s)
  {
    var s1 := if completed then s else CancelImage(s, r, ImageCancelled);
    Put(s1, r, s1.works[r].(caller := Left))
  }

  predicate Members(s: State, first: nat, count: nat) {
    && first + count <= |s.works|
    && forall r :: first <= r < first + count ==>
         s.works[r].job.Image? && s.works[r].job.completion.Some?
  }

  function LeaveBatch(s: State, first: nat, count: nat): State
    requires Members(s, first, count) && Allocated(s)
    decreases count
  {
    if count == 0 then s
    else
      var s1 := if s.works[first].job.completion.value.Pending?
                then CancelImage(s, first, BatchCancelled) else s;
      LeaveBatch(s1, first + 1, count - 1)
  }

  predicate PassiveAllowed(s: State) {
    && !s.closing && s.fatal.None? && s.recoverable.None? && s.owner == LLM
    && s.phase in {LlmReady, LlmReserved}
    && (!s.cfg.router || s.activeChats == 0)
  }

  predicate ControlAllowed(s: State, abort: bool) {
    && !s.closing
    && (if abort then s.activeChats > 0
        else && s.activeChats == 0
             && s.phase in {AwaitingRequest, LlmReserved, LlmReady, ComfyReady, ImageActive})
  }

  function TakeMetadata(s: State): State {
    s.(activeMetadata := s.activeMetadata + 1,
       seen := s.seen.(metadataHeld := s.seen.metadataHeld + 1))
  }

  function DropMetadata(s: State): State
    requires s.seen.metadataHeld > 0
  {
    s.(activeMetadata := s.activeMetadata - 1,
       seen := s.seen.(metadataHeld := s.seen.metadataHeld - 1))
  }

  predicate ComfyControlAllowed(s: State) {
    !Refuses(s) && s.owner == COMFY && s.phase in {ComfyReady, ImageActive}
  }

  function TakeControl(s: State): State {
    s.(activeControls := s.activeControls + 1,
       seen := s.seen.(controlsHeld := s.seen.controlsHeld + 1))
  }

  function DropControl(s: State): State
    requires s.seen.controlsHeld > 0
  {
    s.(activeControls := s.activeControls - 1,
       seen := s.seen.(controlsHeld := s.seen.controlsHeld - 1))
  }

  function MarkRecoverable(s: State, reason: Reason): State {
    s.(recoverable := Some(reason), phase := Error)
  }

  function BeginClose(s: State): State {
    if s.closing then s else s.(closing := true, phase := ShuttingDown, closer := Begun)
  }

  function DrainClose(s: State): State
    requires Allocated(s)
  {
    FailQueued(s, BrokerClosing).(closer := Drained)
  }

  // ---------------------------------------------------------------- dispatcher: chats

  /** Take the next work, or stop. With nothing to do the dispatcher stays suspended. */
  function NextWork(s: State): State
    requires Allocated(s)
  {
    if Refuses(s) then s.(pc := Dead)
    else if s.queue == [] then s
    else
      var r := s.queue[0];
      var s1 := ReleaseAccounting(
        s.(queue := s.queue[1..], seen := s.seen.(dispatched := s.seen.dispatched + [r])),
        s.works[r]);
      if s1.works[r].job.Chat? then DispatchChat(s1, r) else DispatchImage(s1, r)
  }

  function DispatchChat(s: State, r: nat): State
    requires r < |s.works| && s.works[r].job.Chat?
  {
    if s.works[r].cancelled then s.(pc := Idle)
    else if s.cfg.Serialised() then s.(pc := ChatEntry(r))
    else Decide(s, r)
  }

  function DrainChats(s: State, r: nat): State
    requires r < |s.works| && s.works[r].job.Chat?
  {
    if s.activeChats != 0 || s.activeMetadata != 0 then s.(pc := ChatDrain(r))
    else Decide(s.(phase := DrainingLlm), r)
  }

  /** Woken in the drain loop. The return taken while closing answers nobody. */
  function ResumeDrainChats(s: State, r: nat): State
    requires r < |s.works| && s.works[r].job.Chat?
  {
    if s.works[r].cancelled then s.(pc := Idle)
    else if s.closing
    then s.(pc := Idle, seen := s.seen.(abandoned := s.seen.abandoned + {r}))
    else DrainChats(s, r)
  }

  predicate Suits(s: State, target: Option<Point>) {
    s.owner == LLM && s.recoverable.None? && (target.None? || target == s.restorePoint)
  }

  function Decide(s: State, r: nat): State
    requires r < |s.works| && s.works[r].job.Chat?
  {
    var target := s.works[r].job.target;
    if Suits(s, target) then s.(pc := Granting(r))
    else if s.owner != LLM || target.None? then s.(pc := ControlEntry(r))
    else BeginReload(s, r)
  }

  function DrainControls(s: State, r: nat): State {
    s.(pc := if s.activeControls != 0 then ControlDrain(r) else Freeing(r))
  }

  function BeginReload(s: State, r: nat): State
    requires r < |s.works| && s.works[r].job.Chat?
  {
    var s1 := s.(owner := UNKNOWN);
    if s1.controlValidated then Reload(s1, r) else s1.(pc := RestoreValidating(r))
  }

  /** Starting any acquisition means that the LLM may hold the GPU from now on. */
  function StartAcquire(s: State, pc: Pc): State {
    s.(pc := pc, seen := s.seen.(held := true))
  }

  function Reload(s: State, r: nat): State
    requires r < |s.works| && s.works[r].job.Chat?
  {
    if s.works[r].job.target.Some? then StartAcquire(s.(phase := ReloadingLlm), AcquiringTarget(r))
    else if s.cfg.router then
      if s.recoverable.Some? && s.restorePoint.Some? then s.(pc := RouterReleasing(r))
      else StartAcquire(s, RouterAcquiring(r))
    else if && s.restorePoint.None? && s.cfg.Observes()
            && !(s.cfg.kind.TabbyApi? && s.recoverable.Some?)
    then s.(pc := RestoreObserving(r))
    else ReloadSaved(s, r)
  }

  function ReloadSaved(s: State, r: nat): State {
    StartAcquire(s.(phase := ReloadingLlm), Acquiring(r))
  }

  function RestoreFailed(s: State, r: nat, reason: Reason): State
    requires r < |s.works|
  {
    if s.closing then RefuseChat(s, r) else s.(pc := RestoreMarking(r, reason))
  }

  function RefuseChat(s: State, r: nat): State
    requires r < |s.works|
  {
    Resolve(s, r, if s.fatal.Some? then s.fatal.value
                  else if s.recoverable.Some? then s.recoverable.value
                  else NotReady).(pc := Idle)
  }

  function Restored(s: State, r: nat, point: Option<Point>): State {
    var s1 := s.(restorePoint := point, owner := LLM, pc := Granting(r));
    if s1.closing then s1
    else s1.(fatal := None, recoverable := None,
             phase := if s1.cfg.Reserves() then LlmReserved else LlmReady)
  }

  function Grant(s: State, r: nat): State
    requires r < |s.works| && s.works[r].job.Chat?
  {
    var w := s.works[r];
    if w.cancelled then s.(pc := Idle)
    else if s.closing then Resolve(s, r, BrokerClosing).(pc := Idle)
    else if s.fatal.Some? then Resolve(s, r, s.fatal.value).(pc := Idle)
    else
      Put(s, r, w.(job := w.job.(granted := true, ready := Settle(w.job.ready, Value))))
      .(activeChats := s.activeChats + 1, pc := Idle,
        phase := if s.cfg.Reserves() then LlmReserved
                 else if s.cfg.kind in {Prism, Strata} then LlmReady
                 else s.phase)
  }

  // ---------------------------------------------------------------- dispatcher: images

  function DispatchImage(s: State, r: nat): State
    requires r < |s.works| && s.works[r].job.Image?
  {
    if s.works[r].cancelled then Resolve(s, r, ImageCancelled).(pc := Idle)
    else if s.owner != COMFY then s.(pc := DrainEntry(r))
    else Submit(s, r)
  }

  function Submit(s: State, r: nat): State
    requires r < |s.works| && s.works[r].job.Image?
  {
    if s.works[r].cancelled then Resolve(s, r, ImageCancelled).(pc := Idle)
    else s.(phase := ImageActive, pc := Submitting(r), seen := s.seen.(dirty := true))
  }

  function DrainForImage(s: State, r: nat): State
    requires r < |s.works| && s.works[r].job.Image?
  {
    if s.works[r].cancelled then
      Resolve(s.(phase := if s.owner == LLM then LlmReady else AwaitingRequest), r, ImageCancelled)
      .(pc := Idle)
    else if s.activeChats != 0 || s.activeMetadata != 0 then s.(pc := Draining(r))
    else Activate(s, r)
  }

  function Activate(s: State, r: nat): State
    requires r < |s.works| && s.works[r].job.Image?
  {
    if s.cfg.router || (s.cfg.Observes() && s.owner == UNKNOWN) then
      if s.controlValidated then Activated(s, r) else s.(pc := ActivateValidating(r))
    else ReleaseOwner(s, r)
  }

  function Activated(s: State, r: nat): State
    requires r < |s.works| && s.works[r].job.Image?
  {
    if s.cfg.router then
      if s.restorePoint.None? then StartAcquire(s, ActivateAcquiring(r)) else StartRelease(s, r)
    else s.(pc := ActivateObserving(r))
  }

  function StartRelease(s: State, r: nat): State {
    s.(owner := UNKNOWN, phase := UnloadingLlm, pc := Releasing(r))
  }

  function ReleaseOwner(s: State, r: nat): State
    requires r < |s.works| && s.works[r].job.Image?
  {
    if s.owner == LLM then
      if s.restorePoint.None? then ImageFailed(s.(owner := UNKNOWN, phase := UnloadingLlm), r)
      else StartRelease(s, r)
    else GiveToComfy(s, r)
  }

  function GiveToComfy(s: State, r: nat): State
    requires r < |s.works| && s.works[r].job.Image?
  {
    Submit(s.(owner := COMFY, recoverable := None, phase := ComfyReady), r)
  }

  /** The exception handler around an image's whole dispatch. */
  function ImageFailed(s: State, r: nat): State
    requires r < |s.works|
  {
    if s.owner == COMFY && !s.closing then
      Resolve(s.(phase := ComfyReady), r, HandoffFailed).(pc := Idle)
    else if s.owner == LLM && s.fatal.None? then
      Resolve(s.(phase := LlmReady), r, HandoffFailed).(pc := Idle)
    else if !s.closing then s.(pc := ImageMarking(r))
    else Resolve(s, r, HandoffFailed).(pc := Idle)
  }

  function Forgotten(s: State, r: nat): State
    requires r < |s.works| && s.works[r].job.Image?
  {
    Put(s, r, s.works[r].(job := s.works[r].job.(bytes := 0)))
  }

  function Submitted(s: State, r: nat, rejected: bool, prompt: bool): State
    requires r < |s.works| && s.works[r].job.Image?
  {
    var s0 := Forgotten(s, r);
    var w := s0.works[r];
    var s1 := Put(s0, r, w.(job := w.job.(submitted := Settle(w.job.submitted, Value))));
    if rejected || !prompt then ImageFailed(s1, r) else s1.(pc := AwaitingPrompt(r))
  }

  function PromptDone(s: State, r: nat): State
    requires r < |s.works| && s.works[r].job.Image?
  {
    var w := s.works[r];
    Put(s, r, w.(job := w.job.(completion := Notify(w.job.completion, Value))))
    .(phase := ComfyReady, pc := Idle)
  }

  // ---------------------------------------------------------------- dispatcher: resumption

  /** How the awaited operation ended. */
  datatype Outcome =
    | Wake | TimedOut | Returned | Raised(vram: bool)
    | Gave(point: Option<Point>) | Responded(rejected: bool, prompt: bool)

  function Current(pc: Pc): Option<nat> {
    if pc.Idle? || pc.MarkingFatal? || pc.Dead? then None else Some(pc.r)
  }

  predicate ServesChat(pc: Pc) {
    || pc.ChatEntry? || pc.ChatDrain? || pc.ControlEntry? || pc.ControlDrain? || pc.Freeing?
    || pc.RestoreValidating? || pc.AcquiringTarget? || pc.RouterReleasing? || pc.RouterAcquiring?
    || pc.RestoreObserving? || pc.Acquiring? || pc.RestoreMarking? || pc.Granting?
  }

  predicate Awake(s: State) {
    && Allocated(s)
    && (Current(s.pc).Some? ==>
          && s.pc.r < |s.works|
          && s.works[s.pc.r].job.Chat? == ServesChat(s.pc))
  }

  function ResumeChat(s: State, o: Outcome): State
    requires Awake(s) && ServesChat(s.pc)
  {
    var r := s.pc.r;
    match s.pc
    case ChatEntry(_) => if o.Wake? then DrainChats(s, r) else s
    case ChatDrain(_) => if o.Wake? then ResumeDrainChats(s, r) else s
    case ControlEntry(_) =>
      if o.Wake? then DrainControls(s.(phase := CleaningComfy), r) else s
    case ControlDrain(_) =>
      if o.Wake? then DrainControls(s, r)
      else if o.TimedOut? then RestoreFailed(s, r, CleanupUnconfirmed) else s
    case Freeing(_) =>
      if o.Returned? then BeginReload(s.(seen := s.seen.(dirty := false)), r)
      else if o.Raised? then RestoreFailed(s, r, CleanupUnconfirmed) else s
    case RestoreValidating(_) =>
      if o.Returned? then Reload(s.(controlValidated := true), r) else Stumble(s, r, o)
    case AcquiringTarget(_) =>
      // The backend contract: a successful acquisition restores the requested target.
      if o.Gave? && o.point.Some? && o.point == s.works[r].job.target then Restored(s, r, o.point)
      else Stumble(s, r, o)
    case RouterReleasing(_) =>
      if o.Returned? then StartAcquire(s.(seen := s.seen.(held := false)), RouterAcquiring(r))
      else Stumble(s, r, o)
    case RouterAcquiring(_) =>
      if o.Gave? && o.point.Some? then Restored(s, r, o.point) else Stumble(s, r, o)
    case RestoreObserving(_) =>
      if o.Gave? then
        if o.point.Some? then Restored(s.(seen := s.seen.(held := true)), r, o.point)
        else ReloadSaved(s.(seen := s.seen.(held := false)), r)
      else Stumble(s, r, o)
    case Acquiring(_) =>
      if o.Gave? && o.point.Some? then Restored(s, r, o.point) else Stumble(s, r, o)
    case RestoreMarking(_, reason) =>
      if o.Wake? then RefuseChat(MarkRecoverable(s, reason), r) else s
    case Granting(_) => if o.Wake? then Grant(s, r) else s
  }

  function Stumble(s: State, r: nat, o: Outcome): State
    requires r < |s.works|
  {
    if o.Raised? then RestoreFailed(s, r, if o.vram then InsufficientVram else NotReady) else s
  }

  function ResumeImage(s: State, o: Outcome): State
    requires Awake(s) && Current(s.pc).Some? && !ServesChat(s.pc)
  {
    var r := s.pc.r;
    match s.pc
    case DrainEntry(_) =>
      if o.Wake? then DrainForImage(s.(phase := DrainingLlm), r) else s
    case Draining(_) =>
      if o.Wake? then DrainForImage(s, r) else if o.TimedOut? then ImageFailed(s, r) else s
    case ActivateValidating(_) =>
      if o.Returned? then Activated(s.(controlValidated := true), r)
      else if o.Raised? then ImageFailed(s, r) else s
    case ActivateAcquiring(_) =>
      if o.Gave? && o.point.Some? then StartRelease(s.(restorePoint := o.point), r)
      else if o.Raised? then ImageFailed(s, r) else s
    case ActivateObserving(_) =>
      if o.Gave? then
        if o.point.Some? then
          ReleaseOwner(s.(restorePoint := o.point, owner := LLM,
                          seen := s.seen.(held := true)), r)
        else ReleaseOwner(s.(seen := s.seen.(held := false)), r)
      else if o.Raised? then ImageFailed(s, r) else s
    case Releasing(_) =>
      if o.Returned? then GiveToComfy(s.(seen := s.seen.(held := false)), r)
      else if o.Raised? then ImageFailed(s, r) else s
    case Submitting(_) =>
      if o.Responded? then Submitted(s, r, o.rejected, o.prompt)
      else if o.Raised? then ImageFailed(Forgotten(s, r), r) else s
    case AwaitingPrompt(_) =>
      if o.Returned? then PromptDone(s, r) else if o.Raised? then ImageFailed(s, r) else s
    case ImageMarking(_) =>
      if o.Wake? then
        Resolve(MarkRecoverable(s, OwnershipUnconfirmed), r, HandoffFailed).(pc := Idle)
      else s
    case Interrupting(_) =>
      if o.Returned? then Resolve(s, r, BrokerClosing).(pc := Dead)
      else if o.Raised? then Resolve(s, r, DispatcherFailed).(pc := MarkingFatal) else s
  }

  function Resume(s: State, o: Outcome): State
    requires Awake(s)
  {
    if s.pc.Idle? then (if o.Wake? then NextWork(s) else s)
    else if s.pc.MarkingFatal? then
      if o.Wake?
      then FailQueued(s.(fatal := Some(DispatcherFailed), phase := Error), DispatcherFailed)
           .(pc := Dead)
      else s
    else if s.pc.Dead? then s
    else if ServesChat(s.pc) then ResumeChat(s, o)
    else ResumeImage(s, o)
  }

  /** close() cancels the dispatcher at whatever it awaits. */
  function Cancel(s: State): State
    requires Awake(s)
  {
    if s.closer != Drained || s.pc.Dead? then s
    else if Current(s.pc).None? then s.(pc := Dead)
    else if s.pc.AwaitingPrompt? then s.(pc := Interrupting(s.pc.r))
    else Resolve(s, s.pc.r, BrokerClosing).(pc := Dead)
  }

  /** An unforeseen exception while a chat is handled ends the dispatcher. */
  function Crash(s: State): State
    requires Awake(s)
  {
    if ServesChat(s.pc) then Resolve(s, s.pc.r, DispatcherFailed).(pc := MarkingFatal) else s
  }

  // ---------------------------------------------------------------- runs

  datatype Label =
    | LAdmitChat(target: Option<Point>) | LEnterChat(r: nat) | LLeaveChat(r: nat)
    | LSubmitImage(size: nat, notifies: bool) | LLeaveImage(r: nat, completed: bool)
    | LSubmitBatch(sizes: seq<nat>) | LLeaveBatch(b: nat)
    | LPassive | LControl(abort: bool) | LDropMetadata | LComfyControl | LDropControl
    | LRouterFailed(r: nat) | LBeginClose | LDrainClose
    | LResume(outcome: Outcome) | LCancel | LCrash

  predicate OpenChat(s: State, r: nat) {
    r < |s.works| && s.works[r].job.Chat? && !s.works[r].caller.Left?
  }

  predicate OpenImage(s: State, r: nat) {
    && r < |s.works| && s.works[r].job.Image? && !s.works[r].caller.Left?
    && forall b :: b in s.seen.batches ==> !(b.first <= r < b.first + b.count)
  }

  predicate OpenBatch(s: State, b: nat) {
    && b < |s.seen.batches| && s.seen.batches[b].open
    && Members(s, s.seen.batches[b].first, s.seen.batches[b].count)
  }

  /** When a step may be taken. The two rules about targets and about reporting a failed router
      request only inside a granted lease are the service's. */
  predicate Enabled(s: State, l: Label) {
    && Awake(s)
    && match l
       case LAdmitChat(target) => target.Some? ==> s.cfg.Targeted()
       case LEnterChat(r) =>
         OpenChat(s, r) && s.works[r].caller.Waiting? && s.works[r].job.ready.Value?
       case LLeaveChat(r) => OpenChat(s, r)
       case LLeaveImage(r, completed) =>
         OpenImage(s, r) && (completed ==> !s.works[r].job.submitted.Pending?)
       case LLeaveBatch(b) => OpenBatch(s, b)
       case LPassive => PassiveAllowed(s)
       case LControl(abort) => ControlAllowed(s, abort)
       case LDropMetadata => s.seen.metadataHeld > 0
       case LComfyControl => ComfyControlAllowed(s)
       case LDropControl => s.seen.controlsHeld > 0
       case LRouterFailed(r) =>
         && OpenChat(s, r) && s.works[r].job.granted && s.works[r].caller.Entered?
         && s.cfg.Reserves()
       case LDrainClose => s.closer == Begun
       case _ => true
  }

  function Step(s: State, l: Label): State {
    if !Enabled(s, l) then s
    else match l
      case LAdmitChat(target) => AdmitChat(s, target)
      case LEnterChat(r) => EnterChat(s, r)
      case LLeaveChat(r) => LeaveChat(s, r)
      case LSubmitImage(size, notifies) => SubmitImage(s, size, notifies)
      case LLeaveImage(r, completed) => LeaveImage(s, r, completed)
      case LSubmitBatch(sizes) => SubmitBatch(s, sizes)
      case LLeaveBatch(b) =>
        var batch := s.seen.batches[b];
        LeaveBatch(s.(seen := s.seen.(batches := s.seen.batches[b := batch.(open := false)])),
                   batch.first, batch.count)
      case LPassive => TakeMetadata(s)
      case LControl(_) => TakeMetadata(s)
      case LDropMetadata => DropMetadata(s)
      case LComfyControl => TakeControl(s)
      case LDropControl => DropControl(s)
      case LRouterFailed(_) => MarkRecoverable(s, RouterUnreliable)
      case LBeginClose => BeginClose(s)
      case LDrainClose => DrainClose(s)
      case LResume(outcome) => Resume(s, outcome)
      case LCancel => Cancel(s)
      case LCrash => Crash(s)
  }

  /** The state after any finite interleaving of client and dispatcher steps. */
  function After(s: State, run: seq<Label>): State {
    if run == [] then s else Step(After(s, run[..|run| - 1]), run[|run| - 1])
  }

  /** initialize() completes before the service listens. Request-driven kinds contact no backend;
      the others free ComfyUI and take a snapshot of the loaded model, or fail for good. Whether an
      unobserved LLM already holds the GPU at that time is arbitrary. */
  function Initial(cfg: Config, snapshot: Option<Point>, held: bool): State {
    var blank := State(cfg, None, [], [], 0, 0, 0, 0, 0, 0, 0, None, None, UNKNOWN,
                       AwaitingRequest, false, false, Idle, Open,
                       Observed(false, held, 0, 0, [], {}, []));
    if cfg.Observes() then blank
    else if snapshot.None? then
      blank.(fatal := Some(InitializationFailed), phase := Error, pc := Dead)
    else
      blank.(restorePoint := snapshot, owner := LLM, phase := LlmReady, controlValidated := true,
             seen := blank.seen.(held := true))
  }
}
