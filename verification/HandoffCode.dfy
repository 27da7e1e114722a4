/** Where the coordinator's coroutines suspend, and where they hold the condition.

    A coroutine is reduced to its awaits, its uses of the condition and the stretches of code in
    between. Branches, loops, returns and exceptions are kept as possibilities. */
module HandoffCode {
  /** What a stretch of code may do to the broker. */
  datatype Part = Chats | Images | Batches | Metadata | Controls | Failures | Dispatches

  /** Attempt stands for try with except or finally: its handler runs after an exception, and possibly
      also on the normal way out. With an empty handler it is a call, whose body a return may leave. */
  datatype Code =
    | Do(part: Part)
    | Await                        // anything but the condition
    | Wait                         // condition.wait()
    | Locked(body: seq<Code>)      // async with condition
    | Repeat(body: seq<Code>)
    | Maybe(body: seq<Code>)
    | Attempt(body: seq<Code>, handler: seq<Code>)
    | Close
    // what is only ever left of a running task
    | Unlock | Relock | Catch(handler: seq<Code>) | Reraise | Drain | AskCancel | Deliver

  /** No await but wait() inside the condition, wait() only inside, and no nesting. Only the
      dispatcher runs the dispatcher's stretches, and it does not call close(). */
  predicate Ok(c: Code, locked: bool, dispatcher: bool) {
    match c
    case Do(part) => part.Dispatches? <==> dispatcher
    case Await => !locked
    case Wait => locked
    case Locked(body) => !locked && forall b :: b in body ==> Ok(b, true, dispatcher)
    case Repeat(body) => forall b :: b in body ==> Ok(b, locked, dispatcher)
    case Maybe(body) => forall b :: b in body ==> Ok(b, locked, dispatcher)
    case Attempt(body, handler) =>
      && (forall b :: b in body ==> Ok(b, locked, dispatcher))
      && (forall b :: b in handler ==> Ok(b, locked, dispatcher))
    case Close => !locked && !dispatcher
    case _ => false
  }

  predicate AllOk(code: seq<Code>, locked: bool, dispatcher: bool) {
    forall c :: c in code ==> Ok(c, locked, dispatcher)
  }

  // ---------------------------------------------------------------- the service's tasks

  /** Any program over the coordinator's coroutines: a request handler awaits elsewhere, branches,
      loops and handles exceptions as it likes. */
  datatype Program =
    | Elsewhere
    | ChatLease(inner: seq<Program>)
    | PassiveMetadata(inner: seq<Program>)
    | RouterControl(inner: seq<Program>)
    | ComfyControl(inner: seq<Program>)
    | ImageBatch(inner: seq<Program>)
    | SubmitImage
    | RouterRequestFailed
    | Shutdown
    | Repeatedly(inner: seq<Program>)
    | Perhaps(inner: seq<Program>)
    | Guarded(inner: seq<Program>, handled: seq<Program>)

  /** One locked stretch. */
  function Section(part: Part): seq<Code> {
    [Locked([Do(part)])]
  }

  /** A context manager: a locked stretch on the way in and one on every way out. */
  function Lease(part: Part, body: seq<Code>): seq<Code> {
    [Locked([Do(part)]), Attempt(body, [Maybe([Locked([Do(part)])])])]
  }

  function CodeOf(p: Program): seq<Code>
    decreases p
  {
    match p
    case Elsewhere => [Await]
    case ChatLease(inner) => Lease(Chats, [Await, Do(Chats)] + CodeOfAll(inner))
    case PassiveMetadata(inner) => Lease(Metadata, CodeOfAll(inner))
    case RouterControl(inner) => Lease(Metadata, CodeOfAll(inner))
    case ComfyControl(inner) => Lease(Controls, CodeOfAll(inner))
    case ImageBatch(inner) => Lease(Batches, CodeOfAll(inner))
    case SubmitImage => Lease(Images, [Await, Do(Images)])
    case RouterRequestFailed => Section(Failures)
    case Shutdown => [Close]
    case Repeatedly(inner) => [Repeat(CodeOfAll(inner))]
    case Perhaps(inner) => [Maybe(CodeOfAll(inner))]
    case Guarded(inner, handled) => [Attempt(CodeOfAll(inner), CodeOfAll(handled))]
  }

  function CodeOfAll(ps: seq<Program>): seq<Code>
    decreases ps
  {
    if ps == [] then [] else CodeOf(ps[0]) + CodeOfAll(ps[1..])
  }

  lemma LeaseOk(part: Part, body: seq<Code>)
    requires AllOk(body, false, false) && !part.Dispatches?
    ensures AllOk(Lease(part, body), false, false)
  {
    SectionOk(part, false);
    assert Ok(Maybe([Locked([Do(part)])]), false, false);
  }

  lemma SectionOk(part: Part, dispatcher: bool)
    requires part.Dispatches? <==> dispatcher
    ensures Ok(Locked([Do(part)]), false, dispatcher) && AllOk(Section(part), false, dispatcher)
  {
    assert Ok(Do(part), true, dispatcher);
  }

  /** Every task of the service keeps the discipline. */
  lemma {:induction false} ProgramOk(p: Program)
    ensures AllOk(CodeOf(p), false, false)
    decreases p
  {
    match p
    case Elsewhere =>
    case ChatLease(inner) =>
      ProgramsOk(inner);
      LeaseOk(Chats, [Await, Do(Chats)] + CodeOfAll(inner));
    case PassiveMetadata(inner) =>
      ProgramsOk(inner);
      LeaseOk(Metadata, CodeOfAll(inner));
    case RouterControl(inner) =>
      ProgramsOk(inner);
      LeaseOk(Metadata, CodeOfAll(inner));
    case ComfyControl(inner) =>
      ProgramsOk(inner);
      LeaseOk(Controls, CodeOfAll(inner));
    case ImageBatch(inner) =>
      ProgramsOk(inner);
      LeaseOk(Batches, CodeOfAll(inner));
    case SubmitImage => LeaseOk(Images, [Await, Do(Images)]);
    case RouterRequestFailed => SectionOk(Failures, false);
    case Shutdown =>
    case Repeatedly(inner) => ProgramsOk(inner);
    case Perhaps(inner) => ProgramsOk(inner);
    case Guarded(inner, handled) =>
      ProgramsOk(inner);
      ProgramsOk(handled);
  }

  lemma {:induction false} ProgramsOk(ps: seq<Program>)
    ensures AllOk(CodeOfAll(ps), false, false)
    decreases ps
  {
    if ps != [] {
      ProgramOk(ps[0]);
      ProgramsOk(ps[1..]);
    }
  }

  // ---------------------------------------------------------------- the dispatcher

  function Call(body: seq<Code>): Code {
    Attempt(body, [])
  }

  /** Enter the condition and wait there, any number of times. */
  function Monitor(): Code {
    Locked([Do(Dispatches), Repeat([Wait, Do(Dispatches)])])
  }

  /** Mark the broker, recoverably or for good, where the code does. */
  function Marking(): Code {
    Maybe([Locked([Do(Dispatches)])])
  }

  function Calls(): Code {
    Repeat([Await, Do(Dispatches)])
  }

  function RestoreLlm(): Code {
    Call([Maybe([Attempt([Monitor()], [Marking()]), Attempt([Calls()], [Marking()])]),
          Attempt([Calls()], [Marking()])])
  }

  function DispatchChat(): Code {
    Call([Maybe([Monitor()]), Maybe([RestoreLlm()]), Locked([Do(Dispatches)])])
  }

  function ActivateComfy(): Code {
    Call([Monitor(), Calls()])
  }

  function DispatchImage(): Code {
    Call([Attempt([Maybe([ActivateComfy()]), Calls()], [Marking()])])
  }

  function Dispatcher(): seq<Code> {
    [Attempt([Repeat([Monitor(), Maybe([DispatchChat()]), Maybe([DispatchImage()])])], [Marking()])]
  }

  /** What the dispatcher still does once its cancellation has been thrown: it may interrupt ComfyUI,
      and if that fails the broker is marked. */
  function AfterCancel(): seq<Code> {
    [Maybe([Await, Do(Dispatches), Marking()])]
  }

  lemma AttemptOk(body: seq<Code>, handler: seq<Code>) returns (c: Code)
    requires AllOk(body, false, true) && AllOk(handler, false, true)
    ensures c == Attempt(body, handler) && AllOk([c], false, true)
  {
    c := Attempt(body, handler);
  }

  lemma MaybeOk(body: seq<Code>) returns (c: Code)
    requires AllOk(body, false, true)
    ensures c == Maybe(body) && AllOk([c], false, true)
  {
    c := Maybe(body);
  }

  lemma MonitorOk() returns (monitor: Code, marking: Code, calls: Code)
    ensures monitor == Monitor() && marking == Marking() && calls == Calls()
    ensures AllOk([monitor], false, true) && AllOk([marking], false, true) && AllOk([calls], false, true)
  {
    monitor, marking, calls := Monitor(), Marking(), Calls();
    SectionOk(Dispatches, true);
    assert Ok(Repeat([Wait, Do(Dispatches)]), true, true);
  }

  lemma RestoreOk() returns (c: Code)
    ensures c == RestoreLlm() && AllOk([c], false, true)
  {
    var monitor, marking, calls := MonitorOk();
    var draining := AttemptOk([monitor], [marking]);
    var freeing := AttemptOk([calls], [marking]);
    var cleaning := MaybeOk([draining, freeing]);
    c := AttemptOk([cleaning, freeing], []);
  }

  lemma ChatOk() returns (c: Code)
    ensures c == DispatchChat() && AllOk([c], false, true)
  {
    var monitor, marking, calls := MonitorOk();
    var restoring := RestoreOk();
    var first := MaybeOk([monitor]);
    var second := MaybeOk([restoring]);
    SectionOk(Dispatches, true);
    c := AttemptOk([first, second, Locked([Do(Dispatches)])], []);
  }

  lemma ImageOk() returns (c: Code)
    ensures c == DispatchImage() && AllOk([c], false, true)
  {
    var monitor, marking, calls := MonitorOk();
    var activating := AttemptOk([monitor, calls], []);
    var first := MaybeOk([activating]);
    var all := AttemptOk([first, calls], [marking]);
    c := AttemptOk([all], []);
  }

  lemma LoopOk(body: seq<Code>) returns (c: Code)
    requires AllOk(body, false, true)
    ensures c == Repeat(body) && AllOk([c], false, true)
  {
    c := Repeat(body);
  }

  /** The dispatcher keeps the discipline, also on its way out. */
  lemma DispatcherOk() returns (code: seq<Code>, after: seq<Code>)
    ensures code == Dispatcher() && AllOk(code, false, true)
    ensures after == AfterCancel() && AllOk(after, false, true)
  {
    var monitor, marking, calls := MonitorOk();
    var chat := ChatOk();
    var image := ImageOk();
    var first := MaybeOk([chat]);
    var second := MaybeOk([image]);
    var loop := LoopOk([monitor, first, second]);
    var all := AttemptOk([loop], [marking]);
    var leaving := MaybeOk([Await, Do(Dispatches), marking]);
    code, after := [all], [leaving];
  }
}
