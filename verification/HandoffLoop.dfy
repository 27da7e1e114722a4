/** The event loop under the broker: one task at a time, a condition with its lock and all that
    wait for it, exceptions, and the cancellation of the dispatcher. No task ever finds the lock
    taken, so acquiring it never suspends, and close() runs from its first line to the request of the
    cancellation with nothing in between. */
module HandoffLoop {
  import opened Basics
  import opened Handoff
  import opened HandoffInvariant
  import opened HandoffSteps
  import opened HandoffHistory
  import opened HandoffTheorems
  import opened HandoffCode
  import Shutdown = HandoffShutdown

  /** What is left of a task; raising while an exception or a return unwinds it. */
  datatype Task = Task(code: seq<Code>, raising: bool)

  datatype Cancelling = NotAsked | Asked | Delivered

  /** Task 0 is the dispatcher. holder and waiters are those of the condition's lock. */
  datatype Loop = Loop(
    broker: State,
    tasks: seq<Task>,
    running: Option<nat>,
    holder: Option<nat>,
    waiters: seq<nat>,
    cancel: Cancelling)

  /** A request arrives; the loop resumes a task, possibly with an exception; the running task takes
      its next step, in which l and flag settle what the code leaves open. */
  datatype Turn =
    | Spawn(program: seq<Program>)
    | Pick(task: nat, raises: bool)
    | Exec(l: Label, flag: bool)

  predicate Does(part: Part, l: Label) {
    match part
    case Chats => l.LAdmitChat? || l.LEnterChat? || l.LLeaveChat?
    case Images => l.LSubmitImage? || l.LLeaveImage?
    case Batches => l.LSubmitBatch? || l.LLeaveBatch?
    case Metadata => l.LPassive? || l.LControl? || l.LDropMetadata?
    case Controls => l.LComfyControl? || l.LDropControl?
    case Failures => l.LRouterFailed?
    case Dispatches => l.LResume? || l.LCrash?
  }

  function Put(s: Loop, i: nat, task: Task): Loop
    requires i < |s.tasks|
  {
    s.(tasks := s.tasks[i := task])
  }

  function Go(s: Loop, i: nat, code: seq<Code>): Loop
    requires i < |s.tasks|
  {
    Put(s, i, s.tasks[i].(code := code))
  }

  predicate Enters(code: seq<Code>) {
    code != [] && (code[0].Locked? || code[0].Relock?)
  }

  /** What follows once the lock is taken. */
  function Entered(code: seq<Code>): seq<Code>
    requires Enters(code)
  {
    if code[0].Locked? then code[0].body + [Unlock] + code[1..] else code[1..]
  }

  function TakeLock(s: Loop, i: nat): Loop
    requires i < |s.tasks| && Enters(s.tasks[i].code)
  {
    Go(s, i, Entered(s.tasks[i].code)).(holder := Some(i))
  }

  /** A free lock that nobody waits for is taken at once; otherwise its taker waits for a turn. */
  function Acquire(s: Loop, i: nat): Loop
    requires i < |s.tasks| && Enters(s.tasks[i].code)
  {
    if s.holder.None? && s.waiters == [] then TakeLock(s, i)
    else s.(waiters := s.waiters + [i], running := None)
  }

  function Without(waiters: seq<nat>, i: nat): seq<nat> {
    if waiters == [] then []
    else if waiters[0] == i then waiters[1..]
    else [waiters[0]] + Without(waiters[1..], i)
  }

  // ---------------------------------------------------------------- the loop resumes a task

  /** A cancelled dispatcher takes the lock back if it was in wait(), and leaves. */
  function Cancelled(code: seq<Code>): seq<Code> {
    (if code != [] && code[0].Relock? then [Relock, Unlock] else []) + [Deliver] + AfterCancel()
  }

  function Picked(s: Loop, i: nat, raises: bool): Loop
    requires i < |s.tasks|
  {
    var task := s.tasks[i];
    if i == 0 && s.cancel.Asked? then
      Put(s, 0, Task(Cancelled(task.code), false))
      .(running := Some(0), waiters := Without(s.waiters, 0), cancel := Delivered)
    else
      // A caller of close() that is itself cancelled cancels the dispatcher again.
      var s1 := Put(s, i, task.(raising := task.raising || raises))
                .(cancel := if raises && i != 0 && s.cancel.Delivered? then Asked else s.cancel);
      if i !in s.waiters then s1.(running := Some(i))
      else if raises && !(Enters(task.code) && task.code[0].Relock?)
      then s1.(running := Some(i), waiters := Without(s.waiters, i))
      else if s.holder.None? && s.waiters[0] == i && Enters(task.code)
      then TakeLock(s1.(running := Some(i), waiters := s.waiters[1..]), i)
      else s1
  }

  // ---------------------------------------------------------------- the running task

  /** An exception passes over the code, out of the condition and into the handlers. */
  function Unwind(s: Loop, i: nat): Loop
    requires i < |s.tasks| && s.tasks[i].code != []
  {
    var code := s.tasks[i].code;
    match code[0]
    case Unlock => Go(s, i, code[1..]).(holder := None)
    case Relock => Acquire(s, i)
    case Catch(handler) => Put(s, i, Task(handler + [Reraise] + code[1..], false))
    case _ => Go(s, i, code[1..])
  }

  function Closing(): seq<Code> {
    [Locked([Drain]), AskCancel, Await]
  }

  function Run(s: Loop, i: nat, l: Label, flag: bool): Loop
    requires i < |s.tasks| && s.tasks[i].code != []
  {
    var code := s.tasks[i].code;
    var rest := code[1..];
    match code[0]
    case Do(part) =>
      Put(if Does(part, l) then s.(broker := Step(s.broker, l)) else s, i, Task(rest, flag))
    case Await => Go(s, i, rest).(running := None)
    case Wait => Go(s, i, [Relock] + rest).(holder := None, running := None)
    case Locked(_) => Acquire(s, i)
    case Relock => Acquire(s, i)
    case Unlock => Go(s, i, rest).(holder := None)
    case Repeat(body) => Go(s, i, if flag then body + code else rest)
    case Maybe(body) => Go(s, i, if flag then body + rest else rest)
    case Attempt(body, handler) => Go(s, i, body + [Catch(handler)] + rest)
    case Catch(handler) => Go(s, i, if flag then handler + [Reraise] + rest else rest)
    case Reraise => Put(s, i, Task(rest, flag))
    case Close =>
      if s.broker.closing then Go(s, i, rest)
      else Go(s.(broker := Step(s.broker, LBeginClose)), i, Closing() + rest)
    case Drain => Go(s.(broker := Step(s.broker, LDrainClose)), i, rest)
    case AskCancel => Go(s, i, rest).(cancel := if s.cancel.NotAsked? then Asked else s.cancel)
    case Deliver => Go(s.(broker := Step(s.broker, LCancel)), i, rest)
  }

  function Execute(s: Loop, i: nat, l: Label, flag: bool): Loop
    requires i < |s.tasks|
  {
    if s.tasks[i].code == [] then s.(running := None)
    else if s.tasks[i].raising then Unwind(s, i)
    else Run(s, i, l, flag)
  }

  function Next(s: Loop, t: Turn): Loop {
    match t
    case Spawn(program) => s.(tasks := s.tasks + [Task(CodeOfAll(program), false)])
    case Pick(i, raises) =>
      if s.running.None? && i < |s.tasks| && s.tasks[i].code != [] then Picked(s, i, raises) else s
    case Exec(l, flag) =>
      if s.running.Some? && s.running.value < |s.tasks| then Execute(s, s.running.value, l, flag) else s
  }

  function AfterTurns(s: Loop, turns: seq<Turn>): Loop {
    if turns == [] then s else Next(AfterTurns(s, turns[..|turns| - 1]), turns[|turns| - 1])
  }

  /** After initialize() the dispatcher exists and has not run yet. */
  function Start(cfg: Config, snapshot: Option<Point>, held: bool): Loop {
    Loop(Initial(cfg, snapshot, held), [Task(Dispatcher(), false)], None, None, [], NotAsked)
  }

  // ---------------------------------------------------------------- the discipline of what is left

  /** The rest of a task takes and gives back the lock in turn. */
  predicate Keeps(code: seq<Code>, locked: bool, dispatcher: bool)
    decreases |code|
  {
    if code == [] then !locked
    else
      match code[0]
      case Unlock => locked && Keeps(code[1..], false, dispatcher)
      case Relock => !locked && Keeps(code[1..], true, dispatcher)
      case Catch(handler) => AllOk(handler, locked, dispatcher) && Keeps(code[1..], locked, dispatcher)
      case Reraise => Keeps(code[1..], locked, dispatcher)
      case Deliver => !locked && dispatcher && Keeps(code[1..], false, dispatcher)
      case _ => Ok(code[0], locked, dispatcher) && Keeps(code[1..], locked, dispatcher)
  }

  lemma {:induction false} KeepsMore(code: seq<Code>, rest: seq<Code>, locked: bool, dispatcher: bool)
    requires AllOk(code, locked, dispatcher) && Keeps(rest, locked, dispatcher)
    ensures Keeps(code + rest, locked, dispatcher)
  {
    if code == [] {
      assert code + rest == rest;
    } else {
      assert code[0] in code;
      KeepsMore(code[1..], rest, locked, dispatcher);
      assert (code + rest)[1..] == code[1..] + rest;
    }
  }

  lemma KeepsOne(c: Code, rest: seq<Code>, locked: bool, dispatcher: bool)
    ensures ([c] + rest)[0] == c && ([c] + rest)[1..] == rest
  {
  }

  /** close() between its first line and the request of the cancellation, by its place. */
  function Tail(stage: nat): seq<Code>
    requires 1 <= stage <= 4
  {
    match stage
    case 1 => [Locked([Drain]), AskCancel, Await]
    case 2 => [Drain, Unlock, AskCancel, Await]
    case 3 => [Unlock, AskCancel, Await]
    case 4 => [AskCancel, Await]
  }

  /** Where close() is, 0 when nobody is inside. */
  function Stage(s: Loop): (stage: nat)
    ensures stage <= 4
  {
    if s.broker.closer == Begun then (if s.holder.Some? then 2 else 1)
    else if s.broker.closer == Drained && s.cancel.NotAsked? then (if s.holder.Some? then 3 else 4)
    else 0
  }

  predicate RunsOk(task: Task, stage: nat, locked: bool, dispatcher: bool)
    requires stage <= 4
  {
    if stage == 0 then Keeps(task.code, locked, dispatcher)
    else && !dispatcher && !task.raising && Tail(stage) <= task.code
         && Keeps(task.code[|Tail(stage)|..], false, false)
  }

  predicate TaskOk(s: Loop, i: nat)
    requires i < |s.tasks|
  {
    if s.running == Some(i) then RunsOk(s.tasks[i], Stage(s), s.holder.Some?, i == 0)
    else Keeps(s.tasks[i].code, false, i == 0)
  }

  /** The dispatcher's cancellation is on its way out of wait(). */
  predicate Due(code: seq<Code>) {
    code != [] && (code[0].Deliver? || ((code[0].Relock? || code[0].Unlock?) && Due(code[1..])))
  }

  /** Where a cancelled dispatcher can still be. */
  predicate Settled(pc: Pc) {
    pc.Interrupting? || pc.MarkingFatal? || pc.Dead?
  }

  predicate CancelOk(s: Loop)
    requires |s.tasks| > 0
  {
    && (s.broker.closer != Drained ==> s.cancel.NotAsked?)
    && (s.cancel.Asked? ==> s.running != Some(0))
    && (s.cancel.Delivered? && !Settled(s.broker.pc) ==>
          s.running == Some(0) && !s.tasks[0].raising && Due(s.tasks[0].code))
  }

  /** Only a running task holds the lock, nobody waits for it, and close() is under way only in a
      running task. */
  predicate Sound(s: Loop) {
    && |s.tasks| > 0 && s.waiters == []
    && (s.holder.Some? ==> s.holder == s.running)
    && (s.running.Some? ==> s.running.value < |s.tasks|)
    && (s.running.None? ==> Stage(s) == 0)
    && (forall i :: 0 <= i < |s.tasks| ==> TaskOk(s, i))
    && CancelOk(s)
  }

  /** The broker as the loop may leave it. */
  predicate BrokerOk(b: State) {
    && Inv(b) && b.seen.abandoned == {} && (b.closer != Begun ==> Shutdown.Calm(b))
    && (b.closing <==> b.closer != Open)
  }

  /** The effects that the loop lets happen. */
  predicate Legal(b: State, l: Label) {
    if l.LBeginClose? then !b.closing
    else if l.LDrainClose? then b.closer == Begun
    else b.closer != Begun && Shutdown.Allowed(b, l)
  }

  predicate Effect(b: State, c: State, l: Option<Label>) {
    if l.None? then c == b else Legal(b, l.value) && c == Step(b, l.value)
  }

  // ---------------------------------------------------------------- the broker's part

  lemma PartStays(b: State, part: Part, l: Label) returns (done: Option<Label>)
    requires BrokerOk(b) && b.closer != Begun && Does(part, l)
    requires part.Dispatches? && b.closer == Drained ==> Settled(b.pc)
    ensures Effect(b, Step(b, l), done)
    ensures var c := Step(b, l);
            c.closer == b.closer && c.closing == b.closing && (Settled(b.pc) ==> Settled(c.pc))
  {
    if part.Dispatches? {
      done := DispatchStays(b, l);
    } else {
      done := Some(l);
      ClientStays(b, l);
    }
  }

  lemma ClientStays(b: State, l: Label)
    requires Shutdown.Calm(b) && Shutdown.Allowed(b, l) && !l.LResume? && !l.LCrash? && !l.LCancel?
    ensures Shutdown.Stays(b, Step(b, l)) && Step(b, l).pc == b.pc
  {
    if Enabled(b, l) && Queues(l) {
      Shutdown.QueueStays(b, l);
    }
  }

  lemma DispatchStays(b: State, l: Label) returns (done: Option<Label>)
    requires BrokerOk(b) && b.closer != Begun && (l.LResume? || l.LCrash?)
    requires b.closer == Drained ==> Settled(b.pc)
    ensures Effect(b, Step(b, l), done)
    ensures Shutdown.Stays(b, Step(b, l)) && (Settled(b.pc) ==> Settled(Step(b, l).pc))
  {
    if b.pc.Dead? {
      done := None;
      DeadStays(b, l);
    } else {
      done := Some(l);
      LiveStays(b, l);
    }
  }

  lemma DeadStays(b: State, l: Label)
    requires b.pc.Dead? && (l.LResume? || l.LCrash?)
    ensures Step(b, l) == b
  {
  }

  lemma LiveStays(b: State, l: Label)
    requires Shutdown.Calm(b) && Shutdown.Allowed(b, l) && (l.LResume? || l.LCrash?)
    ensures Shutdown.Stays(b, Step(b, l)) && (Settled(b.pc) ==> Settled(Step(b, l).pc))
  {
    Shutdown.TakeStays(b, l);
    if Settled(b.pc) {
      StaysSettled(b, l);
    }
  }

  lemma StaysSettled(b: State, l: Label)
    requires Awake(b) && Settled(b.pc) && (l.LResume? || l.LCrash?)
    ensures Settled(Step(b, l).pc)
  {
  }

  lemma CloseBegins(b: State)
    requires BrokerOk(b) && !b.closing
    ensures var c := Step(b, LBeginClose); c.closer == Begun && c.closing
  {
  }

  lemma CloseDrains(b: State)
    requires BrokerOk(b) && b.closer == Begun
    ensures var c := Step(b, LDrainClose); c.closer == Drained
  {
  }

  lemma CancelSettles(b: State)
    requires BrokerOk(b) && b.closer == Drained
    ensures var c := Step(b, LCancel); c.closer == Drained && Settled(c.pc)
  {
  }

  // ---------------------------------------------------------------- every turn keeps it

  /** Only the running task has changed. */
  lemma Moved(s: Loop, u: Loop, i: nat)
    requires Sound(s) && s.running == Some(i)
    requires |u.tasks| == |s.tasks| && forall j :: 0 <= j < |s.tasks| && j != i ==> u.tasks[j] == s.tasks[j]
    requires u.waiters == [] && (u.holder.Some? ==> u.running == Some(i) && u.holder == u.running)
    requires u.running == Some(i) || (u.running.None? && Stage(u) == 0)
    requires TaskOk(u, i) && CancelOk(u)
    ensures Sound(u)
  {
    forall j | 0 <= j < |u.tasks|
      ensures TaskOk(u, j)
    {
      assert TaskOk(s, j);
    }
  }

  /** The code before and after a step of the running task, outside close(). */
  lemma Steady(s: Loop, u: Loop, i: nat)
    requires Sound(s) && s.running == Some(i) && Stage(s) == 0 && s.cancel == u.cancel
    requires u.running == Some(i) && u.waiters == [] && |u.tasks| == |s.tasks|
    requires u.broker.closer == s.broker.closer && (Settled(s.broker.pc) ==> Settled(u.broker.pc))
    requires forall j :: 0 <= j < |s.tasks| && j != i ==> u.tasks[j] == s.tasks[j]
    requires u.holder.Some? ==> u.holder == Some(i)
    requires Keeps(u.tasks[i].code, u.holder.Some?, i == 0)
    requires s.cancel.Delivered? && !Settled(u.broker.pc) ==>
               i == 0 && !u.tasks[0].raising && Due(u.tasks[0].code)
    ensures Sound(u)
  {
    assert TaskOk(s, i);
    Moved(s, u, i);
  }

  lemma DoSound(s: Loop, i: nat, l: Label, flag: bool) returns (done: Option<Label>)
    requires Sound(s) && s.running == Some(i) && Stage(s) == 0 && BrokerOk(s.broker)
    requires s.tasks[i].code != [] && !s.tasks[i].raising && s.tasks[i].code[0].Do?
    ensures Sound(Run(s, i, l, flag)) && Effect(s.broker, Run(s, i, l, flag).broker, done)
  {
    assert TaskOk(s, i);
    var part := s.tasks[i].code[0].part;
    done := None;
    if Does(part, l) {
      done := PartStays(s.broker, part, l);
    }
    Steady(s, Run(s, i, l, flag), i);
  }

  predicate Branches(c: Code) {
    c.Repeat? || c.Maybe? || c.Attempt? || c.Catch? || c.Reraise? || c.Unlock?
  }

  lemma BranchSound(s: Loop, i: nat, l: Label, flag: bool)
    requires Sound(s) && s.running == Some(i) && Stage(s) == 0
    requires s.tasks[i].code != [] && !s.tasks[i].raising && Branches(s.tasks[i].code[0])
    ensures Sound(Run(s, i, l, flag)) && Run(s, i, l, flag).broker == s.broker
  {
    var code := s.tasks[i].code;
    var locked := s.holder.Some?;
    assert TaskOk(s, i);
    match code[0] {
      case Repeat(body) => KeepsMore(body, code, locked, i == 0);
      case Maybe(body) => KeepsMore(body, code[1..], locked, i == 0);
      case Attempt(body, handler) => AttemptKeeps(body, handler, code[1..], locked, i == 0);
      case Catch(handler) => HandlerKeeps(handler, code[1..], locked, i == 0);
      case _ =>
    }
    Steady(s, Run(s, i, l, flag), i);
  }

  lemma AttemptKeeps(body: seq<Code>, handler: seq<Code>, rest: seq<Code>, locked: bool, dispatcher: bool)
    requires AllOk(body, locked, dispatcher) && AllOk(handler, locked, dispatcher)
    requires Keeps(rest, locked, dispatcher)
    ensures Keeps(body + [Catch(handler)] + rest, locked, dispatcher)
  {
    KeepsOne(Catch(handler), rest, locked, dispatcher);
    KeepsMore(body, [Catch(handler)] + rest, locked, dispatcher);
    assert body + [Catch(handler)] + rest == body + ([Catch(handler)] + rest);
  }

  lemma HandlerKeeps(handler: seq<Code>, rest: seq<Code>, locked: bool, dispatcher: bool)
    requires AllOk(handler, locked, dispatcher) && Keeps(rest, locked, dispatcher)
    ensures Keeps(handler + [Reraise] + rest, locked, dispatcher)
  {
    KeepsOne(Reraise, rest, locked, dispatcher);
    KeepsMore(handler, [Reraise] + rest, locked, dispatcher);
    assert handler + [Reraise] + rest == handler + ([Reraise] + rest);
  }

  /** Nobody holds the lock, so it is taken at once. */
  lemma AcquireSound(s: Loop, i: nat)
    requires Sound(s) && s.running == Some(i) && Stage(s) == 0
    requires Enters(s.tasks[i].code)
    ensures Sound(Acquire(s, i)) && Acquire(s, i) == TakeLock(s, i) && Acquire(s, i).broker == s.broker
  {
    var code := s.tasks[i].code;
    assert TaskOk(s, i);
    if code[0].Locked? {
      KeepsOne(Unlock, code[1..], true, i == 0);
      KeepsMore(code[0].body, [Unlock] + code[1..], true, i == 0);
      assert code[0].body + [Unlock] + code[1..] == code[0].body + ([Unlock] + code[1..]);
    }
    Steady(s, Acquire(s, i), i);
  }

  lemma SuspendSound(s: Loop, i: nat, l: Label, flag: bool)
    requires Sound(s) && s.running == Some(i) && Stage(s) == 0
    requires s.tasks[i].code != [] && (s.tasks[i].code[0].Await? || s.tasks[i].code[0].Wait?)
    ensures Sound(Run(s, i, l, flag)) && Run(s, i, l, flag).broker == s.broker
  {
    assert TaskOk(s, i);
    KeepsOne(Relock, s.tasks[i].code[1..], false, i == 0);
    Moved(s, Run(s, i, l, flag), i);
  }

  lemma BeginSound(s: Loop, i: nat, l: Label, flag: bool) returns (done: Option<Label>)
    requires Sound(s) && s.running == Some(i) && Stage(s) == 0 && BrokerOk(s.broker)
    requires s.tasks[i].code != [] && !s.tasks[i].raising && s.tasks[i].code[0].Close?
    ensures Sound(Run(s, i, l, flag)) && Effect(s.broker, Run(s, i, l, flag).broker, done)
  {
    assert TaskOk(s, i);
    if s.broker.closing {
      done := None;
      Steady(s, Run(s, i, l, flag), i);
    } else {
      done := Some(LBeginClose);
      CloseBegins(s.broker);
      var rest := s.tasks[i].code[1..];
      assert (Closing() + rest)[3..] == rest;
      Moved(s, Run(s, i, l, flag), i);
    }
  }

  lemma DeliverSound(s: Loop, i: nat, l: Label, flag: bool) returns (done: Option<Label>)
    requires Sound(s) && s.running == Some(i) && Stage(s) == 0 && BrokerOk(s.broker)
    requires s.tasks[i].code != [] && !s.tasks[i].raising && s.tasks[i].code[0].Deliver?
    ensures Sound(Run(s, i, l, flag)) && Effect(s.broker, Run(s, i, l, flag).broker, done)
  {
    assert TaskOk(s, i);
    done := None;
    if s.broker.closer == Drained {
      done := Some(LCancel);
      CancelSettles(s.broker);
    }
    Steady(s, Run(s, i, l, flag), i);
  }

  /** The next line of close(). */
  lemma TailHead(code: seq<Code>, stage: nat) returns (rest: seq<Code>)
    requires 1 <= stage <= 4 && Tail(stage) <= code
    ensures rest == code[|Tail(stage)|..]
    ensures code[0] == Tail(stage)[0]
    ensures stage == 1 ==> [Drain] + [Unlock] + code[1..] == Tail(2) + rest
    ensures stage == 2 ==> code[1..] == Tail(3) + rest
    ensures stage == 3 ==> code[1..] == Tail(4) + rest
    ensures stage == 4 ==> code[1..] == [Await] + rest
  {
    rest := code[|Tail(stage)|..];
    assert code == Tail(stage) + rest;
  }

  function NextStage(stage: nat): nat {
    if stage == 4 then 0 else stage + 1
  }

  /** Inside close() nothing else can come. */
  lemma ClosingSound(s: Loop, i: nat, l: Label, flag: bool) returns (done: Option<Label>)
    requires Sound(s) && s.running == Some(i) && Stage(s) != 0 && BrokerOk(s.broker)
    ensures s.tasks[i].code != [] && !s.tasks[i].raising
    ensures Sound(Run(s, i, l, flag)) && Effect(s.broker, Run(s, i, l, flag).broker, done)
    ensures Stage(Run(s, i, l, flag)) == NextStage(Stage(s))
  {
    assert TaskOk(s, i);
    var rest := TailHead(s.tasks[i].code, Stage(s));
    done := if Stage(s) == 2 then Some(LDrainClose) else None;
    if Stage(s) == 2 {
      CloseDrains(s.broker);
    }
    if Stage(s) == 4 {
      ClosingEnds(s, i, l, flag);
    } else {
      ClosingGoes(s, Run(s, i, l, flag), i, rest);
    }
  }

  lemma ClosingEnds(s: Loop, i: nat, l: Label, flag: bool)
    requires Sound(s) && s.running == Some(i) && Stage(s) == 4 && s.tasks[i].code != []
    ensures Sound(Run(s, i, l, flag)) && Stage(Run(s, i, l, flag)) == 0
    ensures Run(s, i, l, flag).broker == s.broker
  {
    assert TaskOk(s, i);
    var rest := TailHead(s.tasks[i].code, 4);
    KeepsOne(Await, rest, false, false);
    Moved(s, Run(s, i, l, flag), i);
  }

  lemma ClosingGoes(s: Loop, u: Loop, i: nat, rest: seq<Code>)
    requires Sound(s) && s.running == Some(i) && 1 <= Stage(s) <= 3 && Stage(u) == Stage(s) + 1
    requires u.running == Some(i) && u.waiters == [] && |u.tasks| == |s.tasks| && u.cancel == s.cancel
    requires forall j :: 0 <= j < |s.tasks| && j != i ==> u.tasks[j] == s.tasks[j]
    requires u.holder.Some? ==> u.holder == Some(i)
    requires u.tasks[i].code == Tail(Stage(u)) + rest && !u.tasks[i].raising
    requires Keeps(rest, false, false) && i != 0
    ensures Sound(u)
  {
    assert u.tasks[i].code[|Tail(Stage(u))|..] == rest;
    Moved(s, u, i);
  }

  /** A stretch of code, an await or a use of the condition, by what comes next. */
  lemma RunSound(s: Loop, i: nat, l: Label, flag: bool) returns (done: Option<Label>)
    requires Sound(s) && s.running == Some(i) && BrokerOk(s.broker)
    requires s.tasks[i].code != [] && !s.tasks[i].raising
    ensures Sound(Run(s, i, l, flag)) && Effect(s.broker, Run(s, i, l, flag).broker, done)
  {
    var c := s.tasks[i].code[0];
    assert TaskOk(s, i);
    if Stage(s) != 0 {
      done := ClosingSound(s, i, l, flag);
    } else if c.Do? {
      done := DoSound(s, i, l, flag);
    } else if c.Close? {
      done := BeginSound(s, i, l, flag);
    } else if c.Deliver? {
      done := DeliverSound(s, i, l, flag);
    } else {
      done := None;
      if Branches(c) {
        BranchSound(s, i, l, flag);
      } else if c.Await? || c.Wait? {
        SuspendSound(s, i, l, flag);
      } else {
        AcquireSound(s, i);
      }
    }
  }

  lemma UnwindSound(s: Loop, i: nat)
    requires Sound(s) && s.running == Some(i)
    requires s.tasks[i].code != [] && s.tasks[i].raising
    ensures Sound(Unwind(s, i)) && Unwind(s, i).broker == s.broker
  {
    var code := s.tasks[i].code;
    assert TaskOk(s, i);
    if code[0].Relock? {
      AcquireSound(s, i);
    } else {
      if code[0].Catch? {
        HandlerKeeps(code[0].handler, code[1..], s.holder.Some?, i == 0);
      }
      Steady(s, Unwind(s, i), i);
    }
  }

  lemma ExecuteSound(s: Loop, i: nat, l: Label, flag: bool) returns (done: Option<Label>)
    requires Sound(s) && s.running == Some(i) && BrokerOk(s.broker)
    ensures Sound(Execute(s, i, l, flag)) && Effect(s.broker, Execute(s, i, l, flag).broker, done)
  {
    done := None;
    assert TaskOk(s, i);
    if s.tasks[i].code == [] {
      Moved(s, s.(running := None), i);
    } else if s.tasks[i].raising {
      UnwindSound(s, i);
    } else {
      done := RunSound(s, i, l, flag);
    }
  }

  lemma CancelledKeeps(code: seq<Code>)
    requires Keeps(code, false, true)
    ensures Keeps(Cancelled(code), false, true) && Due(Cancelled(code))
  {
    var dispatcher, after := DispatcherOk();
    KeepsMore(after, [], false, true);
    assert after + [] == after;
    KeepsOne(Deliver, after, false, true);
    var leaving := [Deliver] + after;
    KeepsOne(Unlock, leaving, true, true);
    KeepsOne(Relock, [Unlock] + leaving, false, true);
    assert Cancelled(code) == leaving || Cancelled(code) == [Relock] + ([Unlock] + leaving);
  }

  lemma PickedSound(s: Loop, i: nat, raises: bool)
    requires Sound(s) && s.running.None? && i < |s.tasks|
    ensures Sound(Picked(s, i, raises)) && Picked(s, i, raises).broker == s.broker
  {
    var u := Picked(s, i, raises);
    if i == 0 && s.cancel.Asked? {
      assert TaskOk(s, 0);
      CancelledKeeps(s.tasks[0].code);
    }
    forall j | 0 <= j < |u.tasks|
      ensures TaskOk(u, j)
    {
      assert TaskOk(s, j);
    }
  }

  lemma SpawnSound(s: Loop, program: seq<Program>)
    requires Sound(s)
    ensures Sound(Next(s, Spawn(program)))
  {
    var u := Next(s, Spawn(program));
    ProgramsOk(program);
    KeepsMore(CodeOfAll(program), [], false, false);
    assert CodeOfAll(program) + [] == CodeOfAll(program);
    forall j | 0 <= j < |u.tasks|
      ensures TaskOk(u, j)
    {
      if j < |s.tasks| {
        assert TaskOk(s, j);
      }
    }
  }

  lemma NextSound(s: Loop, t: Turn) returns (done: Option<Label>)
    requires Sound(s) && BrokerOk(s.broker)
    ensures Sound(Next(s, t)) && Effect(s.broker, Next(s, t).broker, done)
  {
    done := None;
    match t {
      case Spawn(program) => SpawnSound(s, program);
      case Pick(i, raises) =>
        if s.running.None? && i < |s.tasks| && s.tasks[i].code != [] {
          PickedSound(s, i, raises);
        }
      case Exec(l, flag) =>
        if s.running.Some? && s.running.value < |s.tasks| {
          done := ExecuteSound(s, s.running.value, l, flag);
        }
    }
  }

  // ---------------------------------------------------------------- the broker's run

  lemma EffectKeeps(b: State, l: Label)
    requires BrokerOk(b) && Legal(b, l)
    ensures BrokerOk(Step(b, l))
  {
    if l.LBeginClose? {
      StepKeeps(b, l);
      Shutdown.BeginStays(b);
      CloseBegins(b);
    } else if l.LDrainClose? {
      Shutdown.DrainStays(b);
      CloseDrains(b);
    } else {
      Shutdown.TakeStays(b, l);
    }
  }

  /** The broker has been led by uninterrupted moves, or close() has just begun after them. */
  predicate LedBy(b: State, start: State, moves: seq<Shutdown.Move>) {
    var m := Shutdown.AfterMoves(start, moves);
    if b.closer == Begun then !m.closing && b == Step(m, LBeginClose) else b == m
  }

  lemma EffectLeads(b: State, l: Label, start: State, moves: seq<Shutdown.Move>)
    returns (more: seq<Shutdown.Move>)
    requires BrokerOk(b) && Legal(b, l) && LedBy(b, start, moves)
    ensures LedBy(Step(b, l), start, more)
  {
    more := moves;
    if l.LBeginClose? {
      CloseBegins(b);
    } else {
      var m := if l.LDrainClose? then Shutdown.Move.Shutdown else Shutdown.Take(l);
      more := moves + [m];
      assert more[..|more| - 1] == moves;
      if l.LDrainClose? {
        CloseDrains(b);
      } else {
        Shutdown.TakeStays(b, l);
      }
    }
  }

  /** In every state of the loop the lock is as it should be, and the broker has only made moves in
      which shutdown is one step. */
  lemma {:induction false} LoopKeeps(cfg: Config, snapshot: Option<Point>, held: bool, turns: seq<Turn>)
    returns (moves: seq<Shutdown.Move>)
    ensures var s := AfterTurns(Start(cfg, snapshot, held), turns);
            Sound(s) && BrokerOk(s.broker) && LedBy(s.broker, Initial(cfg, snapshot, held), moves)
    decreases |turns|
  {
    if turns == [] {
      moves := [];
      StartKeeps(cfg, snapshot, held);
    } else {
      moves := LoopKeeps(cfg, snapshot, held, turns[..|turns| - 1]);
      var s := AfterTurns(Start(cfg, snapshot, held), turns[..|turns| - 1]);
      var done := NextSound(s, turns[|turns| - 1]);
      if done.Some? {
        EffectKeeps(s.broker, done.value);
        moves := EffectLeads(s.broker, done.value, Initial(cfg, snapshot, held), moves);
      }
    }
  }

  lemma StartKeeps(cfg: Config, snapshot: Option<Point>, held: bool)
    ensures Sound(Start(cfg, snapshot, held)) && BrokerOk(Initial(cfg, snapshot, held))
    ensures LedBy(Initial(cfg, snapshot, held), Initial(cfg, snapshot, held), [])
  {
    var code, after := DispatcherOk();
    KeepsMore(code, [], false, true);
    assert code + [] == code;
    InitialHolds(cfg, snapshot, held);
  }

  // ---------------------------------------------------------------- results

  ghost predicate Occurs(s: Loop) {
    exists cfg, snapshot, held, turns :: s == AfterTurns(Start(cfg, snapshot, held), turns)
  }

  predicate Held(s: Loop) {
    Sound(s) && BrokerOk(s.broker)
  }

  lemma OccursHeld(s: Loop)
    requires Occurs(s)
    ensures Held(s)
  {
    var cfg, snapshot, held, turns :| s == AfterTurns(Start(cfg, snapshot, held), turns);
    var moves := LoopKeeps(cfg, snapshot, held, turns);
  }

  /** Whenever a task suspends, the condition is free; in every state nobody waits for it, so a task
      that enters it never suspends. */
  lemma LockIsFree(s: Loop)
    requires Occurs(s)
    ensures s.waiters == [] && (s.running.None? ==> s.holder.None?)
    ensures forall i :: 0 <= i < |s.tasks| && s.running == Some(i) && Enters(s.tasks[i].code) ==>
              Acquire(s, i).running == Some(i) && Acquire(s, i).holder == Some(i)
  {
    OccursHeld(s);
    forall i | 0 <= i < |s.tasks| && s.running == Some(i) && Enters(s.tasks[i].code)
      ensures s.holder.None?
    {
      assert TaskOk(s, i);
    }
  }

  /** No task ever sees close() half done: when one suspends, shutdown has not begun, or the queue is
      drained and the cancellation asked for. */
  lemma CloseIsNeverHalfDone(s: Loop)
    requires Occurs(s) && s.running.None?
    ensures s.broker.closer != Begun && (s.broker.closer == Drained ==> !s.cancel.NotAsked?)
  {
    OccursHeld(s);
  }

  lemma NextHolds(s: Loop, t: Turn)
    requires Held(s)
    ensures Held(Next(s, t))
  {
    var done := NextSound(s, t);
    if done.Some? {
      EffectKeeps(s.broker, done.value);
    }
  }

  lemma Line(s: Loop, i: nat, t: Turn) returns (u: Loop)
    requires Held(s) && s.running == Some(i) && Stage(s) != 0 && t.Exec?
    ensures u == Next(s, t) && Held(u) && u.running == Some(i) && Stage(u) == NextStage(Stage(s))
    ensures u.broker == if Stage(s) == 2 then Step(s.broker, LDrainClose) else s.broker
    ensures Stage(s) == 4 ==> u.cancel.Asked?
  {
    u := Next(s, t);
    var done := ClosingSound(s, i, t.l, t.flag);
    NextHolds(s, t);
    assert TaskOk(s, i);
    var rest := TailHead(s.tasks[i].code, Stage(s));
  }

  lemma FirstLine(s: Loop, i: nat, t: Turn) returns (u: Loop)
    requires Held(s) && s.running == Some(i) && i < |s.tasks| && t.Exec? && !s.broker.closing
    requires s.tasks[i].code != [] && s.tasks[i].code[0].Close? && !s.tasks[i].raising
    ensures u == Next(s, t) && Held(u) && u.running == Some(i) && Stage(u) == 1
    ensures u.broker == Step(s.broker, LBeginClose)
  {
    u := Next(s, t);
    assert TaskOk(s, i);
    CloseBegins(s.broker);
    NextHolds(s, t);
  }

  predicate CallsClose(s: Loop, i: nat) {
    && s.running == Some(i) && i < |s.tasks| && !s.broker.closing && !s.tasks[i].raising
    && s.tasks[i].code != [] && s.tasks[i].code[0].Close?
  }

  /** The broker after the first lines of close(): begun by the first, drained by the third. */
  function Closed(b: State, lines: nat): State {
    var begun := Step(b, LBeginClose);
    if lines < 3 then begun else Step(begun, LDrainClose)
  }

  lemma FirstLineOf(s: Loop, i: nat, turns: seq<Turn>) returns (u: Loop)
    requires CallsClose(s, i) && Held(s) && |turns| == 1 && turns[0].Exec?
    ensures u == AfterTurns(s, turns) && Held(u) && u.running == Some(i) && Stage(u) == 1
    ensures u.broker == Closed(s.broker, 1)
  {
    assert turns[..0] == [];
    u := FirstLine(s, i, turns[0]);
  }

  lemma LineOf(s: Loop, t: Loop, i: nat, turns: seq<Turn>) returns (u: Loop)
    requires 2 <= |turns| <= 5 && turns[|turns| - 1].Exec? && t == AfterTurns(s, turns[..|turns| - 1])
    requires Held(t) && t.running == Some(i) && Stage(t) == |turns| - 1
    requires t.broker == Closed(s.broker, |turns| - 1)
    ensures u == AfterTurns(s, turns) && Held(u)
    ensures u.running == Some(i) && Stage(u) == NextStage(|turns| - 1)
    ensures u.broker == Closed(s.broker, |turns|) && (|turns| == 5 ==> u.cancel.Asked?)
  {
    u := Line(t, i, turns[|turns| - 1]);
  }

  lemma {:induction false} LinesOf(s: Loop, i: nat, turns: seq<Turn>) returns (u: Loop)
    requires CallsClose(s, i) && Held(s)
    requires 1 <= |turns| <= 5 && forall n :: 0 <= n < |turns| ==> turns[n].Exec?
    ensures u == AfterTurns(s, turns) && Held(u)
    ensures u.running == Some(i) && Stage(u) == NextStage(|turns| - 1)
    ensures u.broker == Closed(s.broker, |turns|) && (|turns| == 5 ==> u.cancel.Asked?)
    decreases |turns|
  {
    var n := |turns| - 1;
    if n == 0 {
      u := FirstLineOf(s, i, turns);
    } else {
      var t := LinesOf(s, i, turns[..n]);
      u := LineOf(s, t, i, turns);
    }
  }

  /** A task that calls close() runs its five lines without a suspension, whatever the state: after
      them the queue is drained and the dispatcher's cancellation asked for, and no other task ran. */
  lemma CloseReachesCancel(s: Loop, i: nat, turns: seq<Turn>)
    requires Occurs(s) && CallsClose(s, i)
    requires |turns| == 5 && forall n :: 0 <= n < 5 ==> turns[n].Exec?
    ensures var u := AfterTurns(s, turns);
            && u.running == Some(i) && u.cancel.Asked?
            && u.broker == Step(Step(s.broker, LBeginClose), LDrainClose)
  {
    OccursHeld(s);
    var u := LinesOf(s, i, turns);
  }

  /** What holds of every run of the protocol holds of the broker in the loop. */
  lemma LoopIsARun(s: Loop)
    requires Occurs(s)
    ensures Reachable(s.broker)
  {
    var cfg, snapshot, held, turns :| s == AfterTurns(Start(cfg, snapshot, held), turns);
    var moves := LoopKeeps(cfg, snapshot, held, turns);
    MovesReach(cfg, snapshot, held, moves);
    if s.broker.closer == Begun {
      ReachableStep(Shutdown.AfterMoves(Initial(cfg, snapshot, held), moves), LBeginClose);
    }
  }

  lemma MovesReach(cfg: Config, snapshot: Option<Point>, held: bool, moves: seq<Shutdown.Move>)
    ensures Reachable(Shutdown.AfterMoves(Initial(cfg, snapshot, held), moves))
  {
    var start := Initial(cfg, snapshot, held);
    var run := Shutdown.MovesAreRuns(start, moves);
    InitialHolds(cfg, snapshot, held);
    RunLater(start, run);
    assert After(start, run) == After(Initial(After(start, run).cfg, snapshot, held), run);
  }

  /** Every chat of every backend is answered, queued, in the dispatcher's hands or given up by its
      caller, in every state of the loop, also during and after shutdown. */
  lemma EveryChatIsAnswered(s: Loop, r: nat)
    requires Occurs(s)
    ensures !Lost(s.broker, r)
  {
    var cfg, snapshot, held, turns :| s == AfterTurns(Start(cfg, snapshot, held), turns);
    var moves := LoopKeeps(cfg, snapshot, held, turns);
    Shutdown.UninterruptedShutdownAnswersAll(cfg, snapshot, held, moves, r);
  }
}
