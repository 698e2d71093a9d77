/**
 * The two batch commands over the registry: src/Command/SetupCommand.php
 * (create every registered entity, optionally deleting it first, then bind
 * every one) and src/Command/DeleteAllCommand.php (delete every registered
 * entity). The entities are opaque (a type parameter); what the broker
 * answers to each entity call is an oracle indexed by the position of the
 * call in the command's trace. A failure that a `catch` handles sets the
 * error flag and the loop goes on; anything else escapes the command.
 */
module Commands {
  import opened Php
  import opened Broker
  import opened Registry

  datatype Role = AsPublisher | AsConsumer

  /** The entity calls the commands make. */
  datatype Verb = Delete | Create | Reconnect | Bind

  /** One registration: the entity registered under `alias` in the publisher or the consumer array. */
  datatype Reg<T> = Reg(entity: T, role: Role, alias: string)

  /** One entity call of a command and how it returned. */
  datatype Call<T> = Call(verb: Verb, reg: Reg<T>, status: Status)

  /**
   * How one registration is handled: `createEntity` (an optional delete,
   * then create) inside a `catch (AMQPProtocolChannelException)`, or a
   * single call inside a `catch (\Exception)`.
   */
  datatype Step = Creating(force: bool) | Catching(verb: Verb)

  /** The command's calls so far, its `$hasErrors` flag, and what escaped it, if anything did. */
  datatype Progress<T> = Progress(trace: seq<Call<T>>, errors: bool, thrown: Option<Status>)

  /** What `handle` does in the end: returns `(int)$hasErrors`, or lets a throwable escape. */
  datatype Exit = Code(code: nat) | Escaped(cause: Status)

  datatype Command = Setup | DeleteAll

  function Start<T>(): Progress<T> {
    Progress([], false, None)
  }

  /** The registrations of one registry array, in iteration order. */
  function Registrations<T>(a: Array<T>, role: Role): (regs: seq<Reg<T>>)
    requires Wf(a)
    ensures |regs| == |a.keys|
    ensures forall i :: 0 <= i < |regs| ==> regs[i] == Reg(a.items[a.keys[i]], role, a.keys[i])
  {
    seq(|a.keys|, i requires 0 <= i < |a.keys| => Reg(a.items[a.keys[i]], role, a.keys[i]))
  }

  /**
   * The calls `createEntity` makes when `n` calls precede it: with `force`
   * a delete, which ends the call unless it returned; then a create.
   */
  function CreateCalls<T>(n: nat, r: Reg<T>, force: bool, respond: nat -> Status): (calls: seq<Call<T>>)
    ensures 0 < |calls|
  {
    if !force then [Call(Create, r, respond(n))]
    else if respond(n) != Returned then [Call(Delete, r, respond(n))]
    else [Call(Delete, r, Returned), Call(Create, r, respond(n + 1))]
  }

  /** The calls inside the `try` of one loop iteration; the last one's status is what the `catch` sees. */
  function Calls<T>(n: nat, r: Reg<T>, step: Step, respond: nat -> Status): (calls: seq<Call<T>>)
    ensures 0 < |calls|
  {
    match step
    case Creating(force) => CreateCalls(n, r, force, respond)
    case Catching(verb) => [Call(verb, r, respond(n))]
  }

  /** Whether the `catch` of a loop handles a failure with this status (a call that returned is no failure). */
  predicate Handles(step: Step, s: Status) {
    match step
    case Creating(_) => s == ChannelFault
    case Catching(_) => IsException(s)
  }

  /** What the `catch` block does besides setting the flag: the create loops reconnect the entity. */
  function Recovery<T>(r: Reg<T>, step: Step): seq<Call<T>> {
    if step.Creating? then [Call(Reconnect, r, Returned)] else []
  }

  /** The status of the last call inside the `try`: what the `catch` sees. */
  function Outcome<T>(n: nat, r: Reg<T>, step: Step, respond: nat -> Status): Status {
    var calls := Calls(n, r, step, respond);
    calls[|calls| - 1].status
  }

  /** The calls of one iteration, with the recovery when its failure was handled. */
  function Appended<T>(n: nat, r: Reg<T>, step: Step, respond: nat -> Status): seq<Call<T>> {
    Calls(n, r, step, respond) + (if Handles(step, Outcome(n, r, step, respond)) then Recovery(r, step) else [])
  }

  /**
   * One iteration of a command loop: a handled failure sets the flag, one
   * the `catch` does not handle escapes; nothing happens once a throwable
   * has escaped.
   */
  function Turn<T>(p: Progress<T>, r: Reg<T>, step: Step, respond: nat -> Status): Progress<T> {
    if p.thrown.Some? then p
    else
      var s := Outcome(|p.trace|, r, step, respond);
      Progress(p.trace + Appended(|p.trace|, r, step, respond), p.errors || Handles(step, s),
               if s == Returned || Handles(step, s) then None else Some(s))
  }

  /** The first `n` iterations of one loop over `regs`. */
  function Phase<T>(p: Progress<T>, regs: seq<Reg<T>>, n: nat, step: Step, respond: nat -> Status): Progress<T>
    requires n <= |regs|
  {
    if n == 0 then p else Turn(Phase(p, regs, n - 1, step, respond), regs[n - 1], step, respond)
  }

  /**
   * `SetupCommand::handle`: create publishers, create consumers, bind
   * publishers, bind consumers. Each pair of loops has one body, so each
   * pair is one loop over the publishers followed by the consumers
   * (`PhaseConcat`).
   */
  function SetupRun<T>(pubs: seq<Reg<T>>, cons: seq<Reg<T>>, force: bool, respond: nat -> Status): Progress<T> {
    var all := pubs + cons;
    Phase(Phase(Start(), all, |all|, Creating(force), respond), all, |all|, Catching(Bind), respond)
  }

  /** `DeleteAllCommand::handle`: delete publishers, then consumers. */
  function DeleteAllRun<T>(pubs: seq<Reg<T>>, cons: seq<Reg<T>>, respond: nat -> Status): Progress<T> {
    var all := pubs + cons;
    Phase(Start(), all, |all|, Catching(Delete), respond)
  }

  function ExitOf<T>(p: Progress<T>): Exit {
    if p.thrown.Some? then Escaped(p.thrown.value) else Code(if p.errors then 1 else 0)
  }

  // ---------------------------------------------------------------------
  // The commands as their loops
  // ---------------------------------------------------------------------

  /**
   * `createEntity`: with `force`, delete first (a failing delete ends the
   * call), then create. The status is that of the last call made.
   */
  method CreateEntity<T>(r: Reg<T>, force: bool, respond: nat -> Status, trace0: seq<Call<T>>)
    returns (status: Status, trace: seq<Call<T>>)
    ensures trace == trace0 + CreateCalls(|trace0|, r, force, respond)
    ensures status == trace[|trace| - 1].status
  {
    trace := trace0;
    if force {
      status := respond(|trace|);
      trace := trace + [Call(Delete, r, status)];
      if status != Returned {
        return;
      }
    }
    status := respond(|trace|);
    trace := trace + [Call(Create, r, status)];
  }

  /**
   * One create loop of `handle`: a channel exception sets the error flag
   * and reconnects the entity; any other failure leaves the loop.
   */
  method CreateEach<T>(regs: seq<Reg<T>>, force: bool, respond: nat -> Status, trace0: seq<Call<T>>, errors0: bool)
    returns (trace: seq<Call<T>>, hasErrors: bool, thrown: Option<Status>)
    ensures Progress(trace, hasErrors, thrown) == Phase(Progress(trace0, errors0, None), regs, |regs|, Creating(force), respond)
  {
    ghost var start := Progress(trace0, errors0, None);
    trace, hasErrors, thrown := trace0, errors0, None;
    var i := 0;
    while i < |regs| && thrown.None?
      invariant i <= |regs|
      invariant Progress(trace, hasErrors, thrown) == Phase(start, regs, i, Creating(force), respond)
    {
      ghost var before := Progress(trace, hasErrors, thrown);
      var status;
      status, trace := CreateEntity(regs[i], force, respond, trace);
      assert status == Outcome(|before.trace|, regs[i], Creating(force), respond);
      if status == ChannelFault {
        hasErrors := true;
        trace := trace + [Call(Reconnect, regs[i], Returned)];
      } else if status != Returned {
        thrown := Some(status);
      }
      assert Progress(trace, hasErrors, thrown) == Turn(before, regs[i], Creating(force), respond);
      i := i + 1;
    }
    PhaseAfterThrow(start, regs, i, |regs|, Creating(force), respond);
  }

  /**
   * One loop of `handle` that makes a single call per entity inside
   * `catch (\Exception)`: a \Error is not an \Exception and leaves the loop.
   */
  method TryEach<T>(regs: seq<Reg<T>>, verb: Verb, respond: nat -> Status, trace0: seq<Call<T>>, errors0: bool)
    returns (trace: seq<Call<T>>, hasErrors: bool, thrown: Option<Status>)
    ensures Progress(trace, hasErrors, thrown) == Phase(Progress(trace0, errors0, None), regs, |regs|, Catching(verb), respond)
  {
    ghost var start := Progress(trace0, errors0, None);
    trace, hasErrors, thrown := trace0, errors0, None;
    var i := 0;
    while i < |regs| && thrown.None?
      invariant i <= |regs|
      invariant Progress(trace, hasErrors, thrown) == Phase(start, regs, i, Catching(verb), respond)
    {
      var status := respond(|trace|);
      trace := trace + [Call(verb, regs[i], status)];
      if status == EngineError {
        thrown := Some(status);
      } else if IsException(status) {
        hasErrors := true;
      }
      i := i + 1;
    }
    PhaseAfterThrow(start, regs, i, |regs|, Catching(verb), respond);
  }

  /**
   * A loop over the publishers followed, unless something escaped, by the
   * same loop over the consumers: the create loops, the bind loops and the
   * delete loops of the two commands.
   */
  method EachRegistration<T>(pubs: seq<Reg<T>>, cons: seq<Reg<T>>, step: Step, respond: nat -> Status,
                             trace0: seq<Call<T>>, errors0: bool)
    returns (trace: seq<Call<T>>, hasErrors: bool, thrown: Option<Status>)
    ensures Progress(trace, hasErrors, thrown)
            == Phase(Progress(trace0, errors0, None), pubs + cons, |pubs + cons|, step, respond)
  {
    ghost var start := Progress(trace0, errors0, None);
    ghost var afterPubs := Phase(start, pubs, |pubs|, step, respond);
    if step.Creating? {
      trace, hasErrors, thrown := CreateEach(pubs, step.force, respond, trace0, errors0);
    } else {
      trace, hasErrors, thrown := TryEach(pubs, step.verb, respond, trace0, errors0);
    }
    if thrown.None? {
      if step.Creating? {
        trace, hasErrors, thrown := CreateEach(cons, step.force, respond, trace, hasErrors);
      } else {
        trace, hasErrors, thrown := TryEach(cons, step.verb, respond, trace, hasErrors);
      }
    } else {
      ThrownStays(afterPubs, cons, |cons|, step, respond);
    }
    PhaseConcat(start, pubs, cons, |cons|, step, respond);
  }

  class SetupCommand<T(==)> {
    const container: Container<T>

    constructor (container: Container<T>)
      ensures this.container == container
    {
      this.container := container;
    }

    /** `handle`, with `--force` as `force`. */
    method Handle(force: bool, respond: nat -> Status) returns (exit: Exit, trace: seq<Call<T>>)
      requires container.Valid()
      ensures var p := SetupRun(Registrations(container.publishers, AsPublisher),
                                Registrations(container.consumers, AsConsumer), force, respond);
              trace == p.trace && exit == ExitOf(p)
    {
      var pubs := Registrations(container.publishers, AsPublisher);
      var cons := Registrations(container.consumers, AsConsumer);
      ghost var created := Phase(Start(), pubs + cons, |pubs + cons|, Creating(force), respond);
      var hasErrors, thrown;
      trace, hasErrors, thrown := EachRegistration(pubs, cons, Creating(force), respond, [], false);
      if thrown.None? {
        trace, hasErrors, thrown := EachRegistration(pubs, cons, Catching(Bind), respond, trace, hasErrors);
      } else {
        ThrownStays(created, pubs + cons, |pubs + cons|, Catching(Bind), respond);
      }
      exit := if thrown.Some? then Escaped(thrown.value) else Code(if hasErrors then 1 else 0);
    }
  }

  class DeleteAllCommand<T(==)> {
    const container: Container<T>

    constructor (container: Container<T>)
      ensures this.container == container
    {
      this.container := container;
    }

    method Handle(respond: nat -> Status) returns (exit: Exit, trace: seq<Call<T>>)
      requires container.Valid()
      ensures var p := DeleteAllRun(Registrations(container.publishers, AsPublisher),
                                    Registrations(container.consumers, AsConsumer), respond);
              trace == p.trace && exit == ExitOf(p)
    {
      var pubs := Registrations(container.publishers, AsPublisher);
      var cons := Registrations(container.consumers, AsConsumer);
      var hasErrors, thrown;
      trace, hasErrors, thrown := EachRegistration(pubs, cons, Catching(Delete), respond, [], false);
      exit := if thrown.Some? then Escaped(thrown.value) else Code(if hasErrors then 1 else 0);
    }
  }

  // ---------------------------------------------------------------------
  // Escaping ends the command
  // ---------------------------------------------------------------------

  /** Once something has escaped, no further iteration makes a call. */
  lemma {:induction false} ThrownStays<T>(p: Progress<T>, regs: seq<Reg<T>>, n: nat, step: Step, respond: nat -> Status)
    requires n <= |regs| && p.thrown.Some?
    ensures Phase(p, regs, n, step, respond) == p
  {
    if n > 0 {
      ThrownStays(p, regs, n - 1, step, respond);
    }
  }

  /** A loop left early by an escaping throwable ends where the whole loop would. */
  lemma {:induction false} PhaseAfterThrow<T>(p: Progress<T>, regs: seq<Reg<T>>, m: nat, n: nat, step: Step,
                                              respond: nat -> Status)
    requires m <= n <= |regs|
    requires m == n || Phase(p, regs, m, step, respond).thrown.Some?
    ensures Phase(p, regs, n, step, respond) == Phase(p, regs, m, step, respond)
    decreases n
  {
    if m < n {
      PhaseAfterThrow(p, regs, m, n - 1, step, respond);
    }
  }

  /** Only the first `n` registrations matter to the first `n` iterations. */
  lemma {:induction false} PhasePrefix<T>(p: Progress<T>, a: seq<Reg<T>>, b: seq<Reg<T>>, n: nat, step: Step,
                                          respond: nat -> Status)
    requires n <= |a|
    ensures Phase(p, a + b, n, step, respond) == Phase(p, a, n, step, respond)
    decreases n
  {
    if n > 0 {
      PhasePrefix(p, a, b, n - 1, step, respond);
      assert (a + b)[n - 1] == a[n - 1];
    }
  }

  /** A loop over `a` followed by the same loop over `b` is one loop over `a + b`. */
  lemma {:induction false} PhaseConcat<T>(p: Progress<T>, a: seq<Reg<T>>, b: seq<Reg<T>>, j: nat, step: Step,
                                          respond: nat -> Status)
    requires j <= |b|
    ensures Phase(Phase(p, a, |a|, step, respond), b, j, step, respond) == Phase(p, a + b, |a| + j, step, respond)
    decreases j
  {
    if j == 0 {
      PhasePrefix(p, a, b, |a|, step, respond);
    } else {
      PhaseConcat(p, a, b, j - 1, step, respond);
      assert (a + b)[|a| + j - 1] == b[j - 1];
    }
  }

  // ---------------------------------------------------------------------
  // The error flag and the exit code
  // ---------------------------------------------------------------------

  /** A failure that the `catch` around the call handles in the given command. */
  predicate Caught<T>(c: Call<T>, cmd: Command) {
    match c.verb
    case Reconnect => false
    case Bind => IsException(c.status)
    case Create => c.status == ChannelFault
    case Delete => if cmd == DeleteAll then IsException(c.status) else c.status == ChannelFault
  }

  /** A failure that no `catch` of the command handles. */
  predicate Escapes<T>(c: Call<T>, cmd: Command) {
    c.verb != Reconnect && c.status != Returned && !Caught(c, cmd)
  }

  /** The loops each command runs. */
  predicate Fits(step: Step, cmd: Command) {
    match step
    case Creating(_) => cmd == Setup
    case Catching(verb) => verb == Bind || (verb == Delete && cmd == DeleteAll)
  }

  ghost predicate AnyCaught<T>(trace: seq<Call<T>>, cmd: Command) {
    exists i :: 0 <= i < |trace| && Caught(trace[i], cmd)
  }

  /**
   * The flag is set exactly when some failure was caught, and a failure
   * that escapes is the last call made.
   */
  ghost predicate Accounted<T>(p: Progress<T>, cmd: Command) {
    && (p.errors <==> AnyCaught(p.trace, cmd))
    && (forall i :: 0 <= i < |p.trace| - 1 ==> !Escapes(p.trace[i], cmd))
    && (p.thrown.Some? <==> |p.trace| > 0 && Escapes(p.trace[|p.trace| - 1], cmd))
    && (p.thrown.Some? ==> p.thrown.value == p.trace[|p.trace| - 1].status)
  }

  lemma AnyCaughtAppend<T>(trace: seq<Call<T>>, more: seq<Call<T>>, cmd: Command)
    ensures AnyCaught(trace + more, cmd) <==> AnyCaught(trace, cmd) || AnyCaught(more, cmd)
  {
    if AnyCaught(trace + more, cmd) {
      var i :| 0 <= i < |trace + more| && Caught((trace + more)[i], cmd);
      if i >= |trace| {
        assert Caught(more[i - |trace|], cmd);
      }
    }
    if AnyCaught(trace, cmd) {
      var i :| 0 <= i < |trace| && Caught(trace[i], cmd);
      assert Caught((trace + more)[i], cmd);
    }
    if AnyCaught(more, cmd) {
      var i :| 0 <= i < |more| && Caught(more[i], cmd);
      assert Caught((trace + more)[|trace| + i], cmd);
    }
  }

  lemma AnyCaughtOne<T>(c: Call<T>, cmd: Command)
    ensures AnyCaught([c], cmd) <==> Caught(c, cmd)
  {
    if Caught(c, cmd) {
      assert Caught([c][0], cmd);
    }
  }

  /** Appending the calls of one iteration to a run that nothing has escaped. */
  lemma AppendAccounted<T>(p: Progress<T>, more: seq<Call<T>>, q: Progress<T>, cmd: Command)
    requires Accounted(p, cmd) && p.thrown.None? && |more| > 0
    requires q.trace == p.trace + more
    requires q.errors <==> p.errors || AnyCaught(more, cmd)
    requires forall i :: 0 <= i < |more| - 1 ==> !Escapes(more[i], cmd)
    requires q.thrown.Some? <==> Escapes(more[|more| - 1], cmd)
    requires q.thrown.Some? ==> q.thrown.value == more[|more| - 1].status
    ensures Accounted(q, cmd)
  {
    AnyCaughtAppend(p.trace, more, cmd);
    forall i | 0 <= i < |q.trace| - 1
      ensures !Escapes(q.trace[i], cmd)
    {
      if i < |p.trace| {
        assert q.trace[i] == p.trace[i];
      } else {
        assert q.trace[i] == more[i - |p.trace|];
      }
    }
    assert q.trace[|q.trace| - 1] == more[|more| - 1];
  }

  /** One iteration flags exactly a handled failure, and only its last call can escape. */
  lemma AppendedAccounted<T>(n: nat, r: Reg<T>, step: Step, respond: nat -> Status, cmd: Command)
    requires Fits(step, cmd)
    ensures var more := Appended(n, r, step, respond);
            var s := Outcome(n, r, step, respond);
            && (AnyCaught(more, cmd) <==> Handles(step, s))
            && (forall i :: 0 <= i < |more| - 1 ==> !Escapes(more[i], cmd))
            && (Escapes(more[|more| - 1], cmd) <==> s != Returned && !Handles(step, s))
            && (s != Returned && !Handles(step, s) ==> more[|more| - 1].status == s)
  {
    var calls := Calls(n, r, step, respond);
    var more := Appended(n, r, step, respond);
    var s := Outcome(n, r, step, respond);
    var last := |calls| - 1;
    assert forall i :: 0 <= i < last ==> calls[i] == Call(Delete, r, Returned);
    assert more[last] == calls[last];
    assert Caught(calls[last], cmd) <==> Handles(step, s);
    if Handles(step, s) {
      assert Caught(more[last], cmd);
    } else {
      forall i | 0 <= i < |more|
        ensures !Caught(more[i], cmd)
      {
        if i < last {
          assert more[i] == calls[i];
        }
      }
    }
    forall i | 0 <= i < |more| - 1
      ensures !Escapes(more[i], cmd)
    {
      if i < last {
        assert more[i] == calls[i];
      }
    }
  }

  lemma TurnAccounted<T>(p: Progress<T>, r: Reg<T>, step: Step, respond: nat -> Status, cmd: Command)
    requires Accounted(p, cmd) && Fits(step, cmd)
    ensures Accounted(Turn(p, r, step, respond), cmd)
  {
    if p.thrown.None? {
      AppendedAccounted(|p.trace|, r, step, respond, cmd);
      AppendAccounted(p, Appended(|p.trace|, r, step, respond), Turn(p, r, step, respond), cmd);
    }
  }

  lemma {:induction false} PhaseAccounted<T>(p: Progress<T>, regs: seq<Reg<T>>, n: nat, step: Step,
                                             respond: nat -> Status, cmd: Command)
    requires n <= |regs| && Accounted(p, cmd) && Fits(step, cmd)
    ensures Accounted(Phase(p, regs, n, step, respond), cmd)
  {
    if n > 0 {
      PhaseAccounted(p, regs, n - 1, step, respond, cmd);
      TurnAccounted(Phase(p, regs, n - 1, step, respond), regs[n - 1], step, respond, cmd);
    }
  }

  /**
   * The exit code of an accounted run: 1 exactly when a failure was caught
   * and none escaped, 0 when none was caught either; otherwise what
   * escaped is the call the run ended on.
   */
  lemma AccountedExit<T>(p: Progress<T>, cmd: Command)
    requires Accounted(p, cmd)
    ensures var none := forall i :: 0 <= i < |p.trace| ==> !Escapes(p.trace[i], cmd);
            && (ExitOf(p) == Code(1) <==> none && AnyCaught(p.trace, cmd))
            && (ExitOf(p) == Code(0) <==> none && !AnyCaught(p.trace, cmd))
            && (ExitOf(p).Escaped? <==> !none)
            && (ExitOf(p).Escaped? ==> var last := p.trace[|p.trace| - 1];
                                       Escapes(last, cmd) && ExitOf(p).cause == last.status
                                       && forall i :: 0 <= i < |p.trace| - 1 ==> !Escapes(p.trace[i], cmd))
  {
    if p.thrown.None? && 0 < |p.trace| {
      assert !Escapes(p.trace[|p.trace| - 1], cmd);
    }
  }

  /**
   * `SetupCommand::handle` returns 1 exactly when a failure was caught (a
   * channel exception from a delete or create, any \Exception from a
   * bind) and none escaped, and 0 when none was caught; otherwise what
   * escaped is the call it ended on.
   */
  lemma SetupExitCode<T>(pubs: seq<Reg<T>>, cons: seq<Reg<T>>, force: bool, respond: nat -> Status)
    ensures var p := SetupRun(pubs, cons, force, respond);
            var none := forall i :: 0 <= i < |p.trace| ==> !Escapes(p.trace[i], Setup);
            && (ExitOf(p) == Code(1) <==> none && AnyCaught(p.trace, Setup))
            && (ExitOf(p) == Code(0) <==> none && !AnyCaught(p.trace, Setup))
            && (ExitOf(p).Escaped? <==> !none)
            && (ExitOf(p).Escaped? ==> var last := p.trace[|p.trace| - 1];
                                       Escapes(last, Setup) && ExitOf(p).cause == last.status
                                       && forall i :: 0 <= i < |p.trace| - 1 ==> !Escapes(p.trace[i], Setup))
  {
    var all := pubs + cons;
    PhaseAccounted(Start(), all, |all|, Creating(force), respond, Setup);
    PhaseAccounted(Phase(Start(), all, |all|, Creating(force), respond), all, |all|, Catching(Bind), respond, Setup);
    AccountedExit(SetupRun(pubs, cons, force, respond), Setup);
  }

  // ---------------------------------------------------------------------
  // What each call is
  // ---------------------------------------------------------------------

  /**
   * Every call but a reconnect got the broker's answer for its position; a
   * reconnect follows a delete or create of the same registration that
   * failed with a channel exception, and every such failure is followed
   * by one.
   */
  ghost predicate Reconnected<T>(trace: seq<Call<T>>, respond: nat -> Status, base: nat) {
    forall i :: 0 <= i < |trace| ==> ReconnectedAt(trace, respond, base, i)
  }

  /** The calls of `trace`, which start at position `base` of the command's trace. */
  ghost predicate ReconnectedAt<T>(trace: seq<Call<T>>, respond: nat -> Status, base: nat, i: nat)
    requires i < |trace|
  {
    && (trace[i].verb != Reconnect ==> trace[i].status == respond(base + i))
    && (trace[i].verb == Reconnect ==>
          && 0 < i && trace[i].status == Returned
          && (trace[i - 1].verb == Create || trace[i - 1].verb == Delete)
          && trace[i - 1].status == ChannelFault && trace[i - 1].reg == trace[i].reg)
    && ((trace[i].verb == Create || trace[i].verb == Delete) && trace[i].status == ChannelFault ==>
          i + 1 < |trace| && trace[i + 1] == Call(Reconnect, trace[i].reg, Returned))
  }

  /** Appending calls that are consistent on their own, and do not start with a reconnect, to a consistent trace. */
  lemma AppendReconnected<T>(trace: seq<Call<T>>, more: seq<Call<T>>, respond: nat -> Status, base: nat)
    requires Reconnected(trace, respond, base) && Reconnected(more, respond, base + |trace|)
    requires 0 < |more| ==> more[0].verb != Reconnect
    ensures Reconnected(trace + more, respond, base)
  {
    var t := trace + more;
    forall i | 0 <= i < |t|
      ensures ReconnectedAt(t, respond, base, i)
    {
      if i < |trace| {
        assert ReconnectedAt(trace, respond, base, i);
        assert t[i] == trace[i];
        if 0 < i {
          assert t[i - 1] == trace[i - 1];
        }
        if i + 1 < |trace| {
          assert t[i + 1] == trace[i + 1];
        }
      } else {
        var j := i - |trace|;
        assert ReconnectedAt(more, respond, base + |trace|, j);
        assert t[i] == more[j];
        if 0 < j {
          assert t[i - 1] == more[j - 1];
        }
        if j + 1 < |more| {
          assert t[i + 1] == more[j + 1];
        }
      }
    }
  }

  lemma AppendedReconnected<T>(n: nat, r: Reg<T>, step: Step, respond: nat -> Status)
    requires Fits(step, Setup)
    ensures var more := Appended(n, r, step, respond);
            Reconnected(more, respond, n) && more[0].verb != Reconnect
  {
    var more := Appended(n, r, step, respond);
    forall i | 0 <= i < |more|
      ensures ReconnectedAt(more, respond, n, i)
    {
    }
  }

  lemma TurnReconnected<T>(p: Progress<T>, r: Reg<T>, step: Step, respond: nat -> Status)
    requires Reconnected(p.trace, respond, 0) && Fits(step, Setup)
    ensures Reconnected(Turn(p, r, step, respond).trace, respond, 0)
  {
    if p.thrown.None? {
      AppendedReconnected(|p.trace|, r, step, respond);
      AppendReconnected(p.trace, Appended(|p.trace|, r, step, respond), respond, 0);
    }
  }

  lemma {:induction false} PhaseReconnected<T>(p: Progress<T>, regs: seq<Reg<T>>, n: nat, step: Step,
                                               respond: nat -> Status)
    requires n <= |regs| && Reconnected(p.trace, respond, 0) && Fits(step, Setup)
    ensures Reconnected(Phase(p, regs, n, step, respond).trace, respond, 0)
  {
    if n > 0 {
      PhaseReconnected(p, regs, n - 1, step, respond);
      TurnReconnected(Phase(p, regs, n - 1, step, respond), regs[n - 1], step, respond);
    }
  }

  /** In `SetupCommand::handle` every call got the broker's answer, and channel exceptions on create are followed by a reconnect. */
  lemma SetupReconnects<T>(pubs: seq<Reg<T>>, cons: seq<Reg<T>>, force: bool, respond: nat -> Status)
    ensures Reconnected(SetupRun(pubs, cons, force, respond).trace, respond, 0)
  {
    var all := pubs + cons;
    PhaseReconnected(Start(), all, |all|, Creating(force), respond);
    PhaseReconnected(Phase(Start(), all, |all|, Creating(force), respond), all, |all|, Catching(Bind), respond);
  }

  // ---------------------------------------------------------------------
  // Phase order
  // ---------------------------------------------------------------------

  /** The calls one iteration of a loop may make. */
  predicate InStep(verb: Verb, step: Step) {
    match step
    case Creating(_) => verb != Bind
    case Catching(v) => verb == v
  }

  /** `q` continues `p` with calls of `step` on registration `r` only. */
  ghost predicate Extends<T>(p: Progress<T>, q: Progress<T>, r: Reg<T>, step: Step) {
    && |p.trace| <= |q.trace| && q.trace[..|p.trace|] == p.trace
    && forall i :: |p.trace| <= i < |q.trace| ==> q.trace[i].reg == r && InStep(q.trace[i].verb, step)
  }

  /** Every call of an iteration is on its registration and belongs to its step. */
  lemma AppendedInStep<T>(n: nat, r: Reg<T>, step: Step, respond: nat -> Status)
    ensures var more := Appended(n, r, step, respond);
            forall i :: 0 <= i < |more| ==> more[i].reg == r && InStep(more[i].verb, step)
  {
  }

  lemma TurnExtends<T>(p: Progress<T>, r: Reg<T>, step: Step, respond: nat -> Status)
    ensures Extends(p, Turn(p, r, step, respond), r, step)
  {
    if p.thrown.None? {
      var more := Appended(|p.trace|, r, step, respond);
      var q := Turn(p, r, step, respond);
      AppendedInStep(|p.trace|, r, step, respond);
      assert q.trace[..|p.trace|] == p.trace;
      forall i | |p.trace| <= i < |q.trace|
        ensures q.trace[i].reg == r && InStep(q.trace[i].verb, step)
      {
        assert q.trace[i] == more[i - |p.trace|];
      }
    }
  }

  /**
   * The publisher creates (with their deletes and reconnects), then the
   * consumer creates, then the publisher binds, then the consumer binds.
   */
  function Rank<T>(c: Call<T>): nat {
    (if c.verb == Bind then 2 else 0) + (if c.reg.role == AsConsumer then 1 else 0)
  }

  function StepRank(step: Step, role: Role): nat {
    (if step == Catching(Bind) then 2 else 0) + (if role == AsConsumer then 1 else 0)
  }

  /** The ranks never go down, and none is above `k`. */
  ghost predicate Ordered<T>(trace: seq<Call<T>>, k: nat) {
    && (forall i, j :: 0 <= i < j < |trace| ==> Rank(trace[i]) <= Rank(trace[j]))
    && (forall i :: 0 <= i < |trace| ==> Rank(trace[i]) <= k)
  }

  lemma TurnOrdered<T>(p: Progress<T>, r: Reg<T>, step: Step, respond: nat -> Status, k: nat)
    requires Ordered(p.trace, k) && k <= StepRank(step, r.role)
    ensures Ordered(Turn(p, r, step, respond).trace, StepRank(step, r.role))
  {
    var q := Turn(p, r, step, respond);
    var k' := StepRank(step, r.role);
    TurnExtends(p, r, step, respond);
    forall i | |p.trace| <= i < |q.trace|
      ensures Rank(q.trace[i]) == k'
    {
      assert q.trace[i].reg == r && InStep(q.trace[i].verb, step);
    }
    forall i, j | 0 <= i < j < |q.trace|
      ensures Rank(q.trace[i]) <= Rank(q.trace[j])
    {
      if j < |p.trace| {
        assert q.trace[i] == p.trace[i] && q.trace[j] == p.trace[j];
      } else if i < |p.trace| {
        assert q.trace[i] == p.trace[i];
      }
    }
    forall i | 0 <= i < |p.trace|
      ensures Rank(q.trace[i]) <= k'
    {
      assert q.trace[i] == p.trace[i];
    }
  }

  /** The rank a loop over `regs` has reached after `n` iterations, starting from `k`. */
  function Reached<T>(regs: seq<Reg<T>>, n: nat, step: Step, k: nat): nat
    requires n <= |regs|
  {
    if n == 0 then k else StepRank(step, regs[n - 1].role)
  }

  /** The registrations of a loop come in rank order, none below `k`. */
  ghost predicate RankSorted<T>(regs: seq<Reg<T>>, step: Step, k: nat) {
    && (forall i :: 0 <= i < |regs| ==> k <= StepRank(step, regs[i].role))
    && (forall i, j :: 0 <= i < j < |regs| ==> StepRank(step, regs[i].role) <= StepRank(step, regs[j].role))
  }

  lemma {:induction false} PhaseOrdered<T>(p: Progress<T>, regs: seq<Reg<T>>, n: nat, step: Step,
                                           respond: nat -> Status, k: nat)
    requires n <= |regs| && Ordered(p.trace, k) && RankSorted(regs, step, k)
    ensures Ordered(Phase(p, regs, n, step, respond).trace, Reached(regs, n, step, k))
  {
    if n > 0 {
      PhaseOrdered(p, regs, n - 1, step, respond, k);
      var prev := Phase(p, regs, n - 1, step, respond);
      assert Phase(p, regs, n, step, respond) == Turn(prev, regs[n - 1], step, respond);
      if n > 1 {
        assert StepRank(step, regs[n - 2].role) <= StepRank(step, regs[n - 1].role);
      }
      TurnOrdered(prev, regs[n - 1], step, respond, Reached(regs, n - 1, step, k));
    }
  }

  /** Publishers first, then consumers: the registration order of both loop pairs. */
  lemma RolesSorted<T>(pubs: seq<Reg<T>>, cons: seq<Reg<T>>, step: Step, k: nat)
    requires forall i :: 0 <= i < |pubs| ==> pubs[i].role == AsPublisher
    requires forall i :: 0 <= i < |cons| ==> cons[i].role == AsConsumer
    requires k <= StepRank(step, AsPublisher)
    ensures RankSorted(pubs + cons, step, k)
  {
    var all := pubs + cons;
    forall i | 0 <= i < |all|
      ensures all[i].role == (if i < |pubs| then AsPublisher else AsConsumer)
    {
      if i >= |pubs| {
        assert all[i] == cons[i - |pubs|];
      }
    }
  }

  /**
   * `SetupCommand::handle` runs its four loops in order: every call for a
   * publisher's create comes before every call for a consumer's create,
   * and all creates come before any bind, publishers' binds first.
   */
  lemma SetupPhaseOrder<T>(pubs: seq<Reg<T>>, cons: seq<Reg<T>>, force: bool, respond: nat -> Status)
    requires forall i :: 0 <= i < |pubs| ==> pubs[i].role == AsPublisher
    requires forall i :: 0 <= i < |cons| ==> cons[i].role == AsConsumer
    ensures var trace := SetupRun(pubs, cons, force, respond).trace;
            forall i, j :: 0 <= i < j < |trace| ==> Rank(trace[i]) <= Rank(trace[j])
  {
    var all := pubs + cons;
    var created := Phase(Start(), all, |all|, Creating(force), respond);
    RolesSorted(pubs, cons, Creating(force), 0);
    PhaseOrdered(Start(), all, |all|, Creating(force), respond, 0);
    assert Ordered(created.trace, 1);
    RolesSorted(pubs, cons, Catching(Bind), 1);
    PhaseOrdered(created, all, |all|, Catching(Bind), respond, 1);
  }

  // ---------------------------------------------------------------------
  // Force-recreate
  // ---------------------------------------------------------------------

  /**
   * Deletes happen only under `force`; there every create comes right after
   * a delete of the same registration that returned, and a delete that
   * returned is followed by its create.
   */
  ghost predicate ForceShaped<T>(trace: seq<Call<T>>, force: bool) {
    forall i :: 0 <= i < |trace| ==> ForceShapedAt(trace, force, i)
  }

  ghost predicate ForceShapedAt<T>(trace: seq<Call<T>>, force: bool, i: nat)
    requires i < |trace|
  {
    && (trace[i].verb == Delete ==> force)
    && (trace[i].verb == Create ==> (force <==> 0 < i && trace[i - 1] == Call(Delete, trace[i].reg, Returned)))
    && (trace[i].verb == Delete && trace[i].status == Returned ==>
          i + 1 < |trace| && trace[i + 1].verb == Create && trace[i + 1].reg == trace[i].reg)
  }

  lemma AppendForceShaped<T>(trace: seq<Call<T>>, more: seq<Call<T>>, force: bool)
    requires ForceShaped(trace, force) && ForceShaped(more, force)
    requires 0 < |more| && force ==> more[0].verb != Create
    ensures ForceShaped(trace + more, force)
  {
    var t := trace + more;
    forall i | 0 <= i < |t|
      ensures ForceShapedAt(t, force, i)
    {
      if i < |trace| {
        assert ForceShapedAt(trace, force, i);
        assert t[i] == trace[i];
        if 0 < i {
          assert t[i - 1] == trace[i - 1];
        }
        if i + 1 < |trace| {
          assert t[i + 1] == trace[i + 1];
        }
      } else {
        var j := i - |trace|;
        assert ForceShapedAt(more, force, j);
        assert t[i] == more[j];
        if 0 < j {
          assert t[i - 1] == more[j - 1];
        } else if 0 < i {
          assert ForceShapedAt(trace, force, i - 1);
          assert t[i - 1] == trace[i - 1];
        }
        if j + 1 < |more| {
          assert t[i + 1] == more[j + 1];
        }
      }
    }
  }

  lemma AppendedForceShaped<T>(n: nat, r: Reg<T>, step: Step, respond: nat -> Status, force: bool)
    requires step == Creating(force) || step == Catching(Bind)
    ensures var more := Appended(n, r, step, respond);
            ForceShaped(more, force) && (0 < |more| && force ==> more[0].verb != Create)
  {
    var more := Appended(n, r, step, respond);
    forall i | 0 <= i < |more|
      ensures ForceShapedAt(more, force, i)
    {
    }
  }

  lemma TurnForceShaped<T>(p: Progress<T>, r: Reg<T>, step: Step, respond: nat -> Status, force: bool)
    requires ForceShaped(p.trace, force) && (step == Creating(force) || step == Catching(Bind))
    ensures ForceShaped(Turn(p, r, step, respond).trace, force)
  {
    if p.thrown.None? {
      AppendedForceShaped(|p.trace|, r, step, respond, force);
      AppendForceShaped(p.trace, Appended(|p.trace|, r, step, respond), force);
    }
  }

  lemma {:induction false} PhaseForceShaped<T>(p: Progress<T>, regs: seq<Reg<T>>, n: nat, step: Step,
                                               respond: nat -> Status, force: bool)
    requires n <= |regs| && ForceShaped(p.trace, force) && (step == Creating(force) || step == Catching(Bind))
    ensures ForceShaped(Phase(p, regs, n, step, respond).trace, force)
  {
    if n > 0 {
      PhaseForceShaped(p, regs, n - 1, step, respond, force);
      TurnForceShaped(Phase(p, regs, n - 1, step, respond), regs[n - 1], step, respond, force);
    }
  }

  /** With `--force` every entity is deleted immediately before it is created; without it nothing is deleted. */
  lemma SetupForceRecreates<T>(pubs: seq<Reg<T>>, cons: seq<Reg<T>>, force: bool, respond: nat -> Status)
    ensures ForceShaped(SetupRun(pubs, cons, force, respond).trace, force)
  {
    var all := pubs + cons;
    PhaseForceShaped(Start(), all, |all|, Creating(force), respond, force);
    PhaseForceShaped(Phase(Start(), all, |all|, Creating(force), respond), all, |all|, Catching(Bind), respond, force);
  }

  // ---------------------------------------------------------------------
  // One call per registration
  // ---------------------------------------------------------------------

  /** The registrations that the calls with this verb among the first `k` calls were made for, in order. */
  function TargetsUpTo<T>(trace: seq<Call<T>>, verb: Verb, k: nat): seq<Reg<T>>
    requires k <= |trace|
    decreases k
  {
    if k == 0 then []
    else TargetsUpTo(trace, verb, k - 1) + (if trace[k - 1].verb == verb then [trace[k - 1].reg] else [])
  }

  /** The registrations that calls with this verb were made for, in order. */
  function Targets<T>(trace: seq<Call<T>>, verb: Verb): seq<Reg<T>> {
    TargetsUpTo(trace, verb, |trace|)
  }

  lemma {:induction false} TargetsPrefix<T>(trace: seq<Call<T>>, more: seq<Call<T>>, verb: Verb, k: nat)
    requires k <= |trace|
    ensures TargetsUpTo(trace + more, verb, k) == TargetsUpTo(trace, verb, k)
    decreases k
  {
    if k > 0 {
      TargetsPrefix(trace, more, verb, k - 1);
      assert (trace + more)[k - 1] == trace[k - 1];
    }
  }

  lemma {:induction false} TargetsSuffix<T>(trace: seq<Call<T>>, more: seq<Call<T>>, verb: Verb, j: nat)
    requires j <= |more|
    ensures TargetsUpTo(trace + more, verb, |trace| + j) == Targets(trace, verb) + TargetsUpTo(more, verb, j)
    decreases j
  {
    if j == 0 {
      TargetsPrefix(trace, more, verb, |trace|);
    } else {
      TargetsSuffix(trace, more, verb, j - 1);
      assert (trace + more)[|trace| + j - 1] == more[j - 1];
    }
  }

  lemma TargetsAppend<T>(trace: seq<Call<T>>, more: seq<Call<T>>, verb: Verb)
    ensures Targets(trace + more, verb) == Targets(trace, verb) + Targets(more, verb)
  {
    TargetsSuffix(trace, more, verb, |more|);
  }

  lemma {:induction false} TargetsNone<T>(more: seq<Call<T>>, verb: Verb, k: nat)
    requires k <= |more| && forall i :: 0 <= i < |more| ==> more[i].verb != verb
    ensures TargetsUpTo(more, verb, k) == []
    decreases k
  {
    if k > 0 {
      TargetsNone(more, verb, k - 1);
    }
  }

  /** The verb that starts each iteration: the delete under `force`, else the create. */
  function Leading(step: Step): Verb {
    match step
    case Creating(force) => if force then Delete else Create
    case Catching(verb) => verb
  }

  lemma TargetsLed<T>(more: seq<Call<T>>, verb: Verb)
    requires |more| > 0 && more[0].verb == verb
    requires forall i :: 1 <= i < |more| ==> more[i].verb != verb
    ensures Targets(more, verb) == [more[0].reg]
  {
    assert more == [more[0]] + more[1..];
    TargetsAppend([more[0]], more[1..], verb);
    TargetsNone(more[1..], verb, |more| - 1);
  }

  /** An iteration makes its leading call first, and only once. */
  lemma AppendedLeads<T>(n: nat, r: Reg<T>, step: Step, respond: nat -> Status)
    ensures var more := Appended(n, r, step, respond);
            && more[0].verb == Leading(step) && more[0].reg == r
            && forall i :: 1 <= i < |more| ==> more[i].verb != Leading(step)
  {
  }

  lemma TurnLeadTargets<T>(p: Progress<T>, r: Reg<T>, step: Step, respond: nat -> Status)
    requires p.thrown.None?
    ensures Targets(Turn(p, r, step, respond).trace, Leading(step)) == Targets(p.trace, Leading(step)) + [r]
  {
    var more := Appended(|p.trace|, r, step, respond);
    TargetsAppend(p.trace, more, Leading(step));
    AppendedLeads(|p.trace|, r, step, respond);
    TargetsLed(more, Leading(step));
  }

  lemma TurnOtherTargets<T>(p: Progress<T>, r: Reg<T>, step: Step, respond: nat -> Status, verb: Verb)
    requires p.thrown.None? && !InStep(verb, step)
    ensures Targets(Turn(p, r, step, respond).trace, verb) == Targets(p.trace, verb)
  {
    var more := Appended(|p.trace|, r, step, respond);
    TargetsAppend(p.trace, more, verb);
    AppendedInStep(|p.trace|, r, step, respond);
    TargetsNone(more, verb, |more|);
  }

  lemma PrefixGrows<T>(front: seq<Reg<T>>, regs: seq<Reg<T>>, n: nat)
    requires 0 < n <= |regs|
    ensures front + regs[..n] == front + regs[..n - 1] + [regs[n - 1]]
  {
    assert regs[..n] == regs[..n - 1] + [regs[n - 1]];
  }

  /** Each iteration of a loop that nothing escapes makes its leading call for its registration. */
  lemma {:induction false} PhaseLeadTargets<T>(p: Progress<T>, regs: seq<Reg<T>>, n: nat, step: Step,
                                               respond: nat -> Status)
    requires n <= |regs| && p.thrown.None? && Phase(p, regs, n, step, respond).thrown.None?
    ensures Targets(Phase(p, regs, n, step, respond).trace, Leading(step)) == Targets(p.trace, Leading(step)) + regs[..n]
  {
    if n > 0 {
      var prev := Phase(p, regs, n - 1, step, respond);
      assert Phase(p, regs, n, step, respond) == Turn(prev, regs[n - 1], step, respond);
      assert prev.thrown.None?;
      PhaseLeadTargets(p, regs, n - 1, step, respond);
      TurnLeadTargets(prev, regs[n - 1], step, respond);
      PrefixGrows(Targets(p.trace, Leading(step)), regs, n);
    }
  }

  /** A loop makes no call of a verb outside its step. */
  lemma {:induction false} PhaseOtherTargets<T>(p: Progress<T>, regs: seq<Reg<T>>, n: nat, step: Step,
                                                respond: nat -> Status, verb: Verb)
    requires n <= |regs| && !InStep(verb, step)
    ensures Targets(Phase(p, regs, n, step, respond).trace, verb) == Targets(p.trace, verb)
  {
    if n > 0 {
      var prev := Phase(p, regs, n - 1, step, respond);
      assert Phase(p, regs, n, step, respond) == Turn(prev, regs[n - 1], step, respond);
      PhaseOtherTargets(p, regs, n - 1, step, respond, verb);
      if prev.thrown.None? {
        TurnOtherTargets(prev, regs[n - 1], step, respond, verb);
      } else {
        assert Turn(prev, regs[n - 1], step, respond) == prev;
      }
    }
  }

  /** A loop ends with nothing escaped only if nothing had escaped before it. */
  lemma PhaseKeepsThrown<T>(p: Progress<T>, regs: seq<Reg<T>>, n: nat, step: Step, respond: nat -> Status)
    requires n <= |regs|
    ensures Phase(p, regs, n, step, respond).thrown.None? ==> p.thrown.None?
  {
    if p.thrown.Some? {
      ThrownStays(p, regs, n, step, respond);
    }
  }

  lemma SetupCreateTargets<T>(pubs: seq<Reg<T>>, cons: seq<Reg<T>>, force: bool, respond: nat -> Status)
    requires SetupRun(pubs, cons, force, respond).thrown.None?
    ensures Targets(SetupRun(pubs, cons, force, respond).trace, Leading(Creating(force))) == pubs + cons
  {
    var all := pubs + cons;
    var created := Phase(Start(), all, |all|, Creating(force), respond);
    PhaseKeepsThrown(created, all, |all|, Catching(Bind), respond);
    assert all[..|all|] == all;
    PhaseLeadTargets(Start(), all, |all|, Creating(force), respond);
    PhaseOtherTargets(created, all, |all|, Catching(Bind), respond, Leading(Creating(force)));
  }

  lemma SetupBindTargets<T>(pubs: seq<Reg<T>>, cons: seq<Reg<T>>, force: bool, respond: nat -> Status)
    requires SetupRun(pubs, cons, force, respond).thrown.None?
    ensures Targets(SetupRun(pubs, cons, force, respond).trace, Bind) == pubs + cons
  {
    var all := pubs + cons;
    var created := Phase(Start(), all, |all|, Creating(force), respond);
    PhaseKeepsThrown(created, all, |all|, Catching(Bind), respond);
    assert all[..|all|] == all;
    PhaseOtherTargets(Start(), all, |all|, Creating(force), respond, Bind);
    PhaseLeadTargets(created, all, |all|, Catching(Bind), respond);
  }

  /**
   * When nothing escapes `SetupCommand::handle`, each registration, in
   * order, has its create started once (by the delete under `force`) and
   * is bound once; an entity registered as publisher and as consumer is
   * handled twice.
   */
  lemma SetupEveryRegistration<T>(pubs: seq<Reg<T>>, cons: seq<Reg<T>>, force: bool, respond: nat -> Status)
    requires SetupRun(pubs, cons, force, respond).thrown.None?
    ensures var trace := SetupRun(pubs, cons, force, respond).trace;
            Targets(trace, if force then Delete else Create) == pubs + cons
            && Targets(trace, Bind) == pubs + cons
  {
    SetupCreateTargets(pubs, cons, force, respond);
    SetupBindTargets(pubs, cons, force, respond);
  }

  // ---------------------------------------------------------------------
  // DeleteAllCommand
  // ---------------------------------------------------------------------

  /** A loop of single calls makes one call per registration, in order, until a \Error escapes. */
  lemma {:induction false} CatchingTrace<T>(regs: seq<Reg<T>>, n: nat, verb: Verb, respond: nat -> Status)
    requires n <= |regs|
    ensures var q := Phase(Start(), regs, n, Catching(verb), respond);
            && |q.trace| <= n
            && (forall i :: 0 <= i < |q.trace| ==> q.trace[i] == Call(verb, regs[i], respond(i)))
            && (q.thrown.None? ==> |q.trace| == n)
  {
    if n > 0 {
      CatchingTrace(regs, n - 1, verb, respond);
      var q := Phase(Start(), regs, n - 1, Catching(verb), respond);
      assert Phase(Start(), regs, n, Catching(verb), respond) == Turn(q, regs[n - 1], Catching(verb), respond);
      if q.thrown.None? {
        assert Turn(q, regs[n - 1], Catching(verb), respond).trace == q.trace + [Call(verb, regs[n - 1], respond(n - 1))];
      }
    }
  }

  /**
   * `DeleteAllCommand::handle` deletes every publisher registration, then
   * every consumer registration, in order, one call each and nothing
   * else, stopping only when a \Error escapes.
   */
  lemma DeleteAllCalls<T>(pubs: seq<Reg<T>>, cons: seq<Reg<T>>, respond: nat -> Status)
    ensures var trace := DeleteAllRun(pubs, cons, respond).trace;
            && |trace| <= |pubs + cons|
            && (forall i :: 0 <= i < |trace| ==> trace[i] == Call(Delete, (pubs + cons)[i], respond(i)))
            && (DeleteAllRun(pubs, cons, respond).thrown.None? ==> |trace| == |pubs + cons|)
  {
    var all := pubs + cons;
    CatchingTrace(all, |all|, Delete, respond);
  }

  /**
   * The exit code of a run of single deletes, one per registration, that
   * stops only at a \Error: what the broker answered decides it.
   */
  lemma DeletesExit<T>(p: Progress<T>, regs: seq<Reg<T>>, respond: nat -> Status)
    requires Accounted(p, DeleteAll)
    requires |p.trace| <= |regs| && (p.thrown.None? ==> |p.trace| == |regs|)
    requires forall i :: 0 <= i < |p.trace| ==> p.trace[i] == Call(Delete, regs[i], respond(i))
    ensures var exit := ExitOf(p);
            var n := |regs|;
            && (exit == Escaped(EngineError) <==> exists i :: 0 <= i < n && respond(i) == EngineError)
            && (exit == Code(1) <==> (forall i :: 0 <= i < n ==> respond(i) != EngineError)
                                     && exists i :: 0 <= i < n && IsException(respond(i)))
            && (exit == Code(0) <==> forall i :: 0 <= i < n ==> respond(i) == Returned)
  {
    var n := |regs|;
    if p.thrown.Some? {
      var last := |p.trace| - 1;
      assert p.trace[last].status == respond(last) == EngineError;
    } else {
      forall i | 0 <= i < n
        ensures respond(i) != EngineError
        ensures IsException(respond(i)) <==> Caught(p.trace[i], DeleteAll)
      {
        assert p.trace[i].status == respond(i);
        if i < n - 1 {
          assert !Escapes(p.trace[i], DeleteAll);
        }
      }
    }
  }

  /**
   * `DeleteAllCommand::handle` returns 1 exactly when some delete threw an
   * \Exception and none threw a \Error, 0 when every delete returned; a
   * \Error from any delete escapes.
   */
  lemma DeleteAllExitCode<T>(pubs: seq<Reg<T>>, cons: seq<Reg<T>>, respond: nat -> Status)
    ensures var exit := ExitOf(DeleteAllRun(pubs, cons, respond));
            var n := |pubs| + |cons|;
            && (exit == Escaped(EngineError) <==> exists i :: 0 <= i < n && respond(i) == EngineError)
            && (exit == Code(1) <==> (forall i :: 0 <= i < n ==> respond(i) != EngineError)
                                     && exists i :: 0 <= i < n && IsException(respond(i)))
            && (exit == Code(0) <==> forall i :: 0 <= i < n ==> respond(i) == Returned)
  {
    var all := pubs + cons;
    PhaseAccounted(Start(), all, |all|, Catching(Delete), respond, DeleteAll);
    DeleteAllCalls(pubs, cons, respond);
    DeletesExit(DeleteAllRun(pubs, cons, respond), pubs + cons, respond);
  }

  /** An entity registered under both roles is deleted twice, once for each registration. */
  lemma DeleteAllTwice<T>(pubs: seq<Reg<T>>, cons: seq<Reg<T>>, respond: nat -> Status, i: nat, j: nat)
    requires i < |pubs| && j < |cons| && DeleteAllRun(pubs, cons, respond).thrown.None?
    ensures var trace := DeleteAllRun(pubs, cons, respond).trace;
            && |trace| == |pubs| + |cons|
            && trace[i] == Call(Delete, pubs[i], respond(i))
            && trace[|pubs| + j] == Call(Delete, cons[j], respond(|pubs| + j))
  {
    DeleteAllCalls(pubs, cons, respond);
  }
}
