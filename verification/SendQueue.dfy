/** The writer's three lanes across reconnects.  Every connection has its own urgent and internal lane and its own
    writer; all share the user lane.  A writer of a closed connection may linger, and steps interleave freely. */
module SendQueue {

  /** What the internal lane holds: a rejoin JOIN, or handshake and keepalive traffic. */
  datatype Item = Join | Control

  /** Where a writer is in nextOutbound: before its first, second or third select, writing, or gone. */
  datatype Writer = First | Second | Third | Writing | Stopped

  /** One connection.  `toQueue` counts the rejoin JOINs not yet put on the internal lane, `users` the user-lane messages
      its writer has taken, and `late` those of them taken after the connection was cancelled. */
  datatype Conn = Conn(internal: seq<Item>, room: nat, urgent: nat, cancelled: bool, writer: Writer, toQueue: nat,
                       users: nat, late: nat)

  datatype Phase = Idle | Draining | Drained | Connected | Closing

  /** The user lane holds, for each message, the connection it was accepted under; `taken` records every user-lane
      message taken, as the connection of the writer and the connection it was accepted under. */
  datatype World = World(current: nat, phase: Phase, registered: bool, out: seq<nat>, capacity: nat,
                         conns: map<nat, Conn>, taken: set<(nat, nat)>)

  datatype Choice = Pass | Stop | Urgent | Internal | User

  datatype Action =
    | BeginDrain | DrainOne | EndDrain
    | Dial(rejoins: nat) | DialFailed
    | QueueControl(c: nat) | QueueUrgent(c: nat) | QueueJoin | Register
    | SendAll(count: nat)
    | Unregister | Cancel
    | Break(c: nat)
    | Write(c: nat, choice: Choice)
    | Written(c: nat, failed: bool)

  const HEADROOM := 16

  // ---- Steps --------------------------------------------------------------------------------------------------

  function With(w: World, c: nat, x: Conn): World {
    w.(conns := w.conns[c := x])
  }

  /** Whether a select that watches this lane could take from it. */
  predicate LaneReady(w: World, x: Conn, choice: Choice) {
    match choice
    case Stop => x.cancelled
    case Urgent => x.urgent > 0
    case Internal => x.internal != []
    case User => w.out != []
    case Pass => false
  }

  /** The lanes each select watches. */
  predicate Watches(pc: Writer, choice: Choice) {
    match pc
    case First => choice.Stop? || choice.Urgent?
    case Second => choice.Stop? || choice.Urgent? || choice.Internal?
    case Third => !choice.Pass?
    case _ => false
  }

  /** A select takes any ready lane it watches; the first two fall through when none is ready, the third waits. */
  predicate CanWrite(w: World, x: Conn, choice: Choice) {
    if choice.Pass? then
      && (x.writer.First? || x.writer.Second?)
      && forall other :: Watches(x.writer, other) ==> !LaneReady(w, x, other)
    else Watches(x.writer, choice) && LaneReady(w, x, choice)
  }

  predicate Enabled(w: World, a: Action) {
    match a
    case BeginDrain => w.phase.Idle?
    case DrainOne => w.phase.Draining? && w.out != []
    case EndDrain => w.phase.Draining? && w.out == []
    case Dial(_) => w.phase.Drained?
    case DialFailed => w.phase.Drained?
    case QueueControl(c) => c in w.conns && |w.conns[c].internal| < w.conns[c].room
    case QueueUrgent(c) => c in w.conns
    case QueueJoin =>
      && w.phase.Connected? && !w.registered && w.current in w.conns && w.conns[w.current].toQueue > 0
      && |w.conns[w.current].internal| < w.conns[w.current].room
    case Register => w.phase.Connected? && !w.registered && w.current in w.conns && w.conns[w.current].toQueue == 0
    case SendAll(_) => true
    case Unregister => w.phase.Connected?
    case Cancel => w.phase.Closing? && w.current in w.conns
    case Break(c) => c in w.conns
    case Write(c, choice) => c in w.conns && CanWrite(w, w.conns[c], choice)
    case Written(c, _) => c in w.conns && w.conns[c].writer.Writing?
  }

  function Accepted(connection: nat, count: nat): seq<nat> {
    seq(count, i => connection)
  }

  function WriteStep(w: World, c: nat, choice: Choice): World
    requires c in w.conns && CanWrite(w, w.conns[c], choice)
  {
    var x := w.conns[c];
    match choice
    case Pass => With(w, c, x.(writer := if x.writer.First? then Second else Third))
    case Stop => With(w, c, x.(writer := Stopped))
    case Urgent => With(w, c, x.(writer := Writing, urgent := x.urgent - 1))
    case Internal => With(w, c, x.(writer := Writing, internal := x.internal[1..]))
    case User =>
      With(w, c, x.(writer := Writing, users := x.users + 1, late := if x.cancelled then x.late + 1 else x.late))
        .(out := w.out[1..], taken := w.taken + {(c, w.out[0])})
  }

  function Step(w: World, a: Action): World
    requires Enabled(w, a)
  {
    match a
    case BeginDrain => w.(phase := Draining)
    case DrainOne => w.(out := w.out[1..])
    case EndDrain => w.(phase := Drained)
    case Dial(rejoins) =>
      With(w, w.current + 1, Conn([], HEADROOM + rejoins, 0, false, First, rejoins, 0, 0))
        .(current := w.current + 1, phase := Connected)
    case DialFailed => w.(phase := Idle)
    case QueueControl(c) => With(w, c, w.conns[c].(internal := w.conns[c].internal + [Control]))
    case QueueUrgent(c) => With(w, c, w.conns[c].(urgent := w.conns[c].urgent + 1))
    case QueueJoin =>
      var x := w.conns[w.current];
      With(w, w.current, x.(internal := x.internal + [Join], toQueue := x.toQueue - 1))
    case Register => w.(registered := true)
    case SendAll(count) =>
      if w.registered && |w.out| + count <= w.capacity then w.(out := w.out + Accepted(w.current, count)) else w
    case Unregister => w.(registered := false, phase := Closing)
    case Cancel => With(w, w.current, w.conns[w.current].(cancelled := true)).(phase := Idle)
    case Break(c) => With(w, c, w.conns[c].(cancelled := true))
    case Write(c, choice) => WriteStep(w, c, choice)
    case Written(c, failed) =>
      With(w, c, w.conns[c].(writer := if failed then Stopped else First, cancelled := w.conns[c].cancelled || failed))
  }

  predicate ValidRun(w: World, run: seq<Action>)
    decreases |run|
  {
    run == [] || (Enabled(w, run[0]) && ValidRun(Step(w, run[0]), run[1..]))
  }

  function Exec(w: World, run: seq<Action>): World
    requires ValidRun(w, run)
    decreases |run|
  {
    if run == [] then w else Exec(Step(w, run[0]), run[1..])
  }

  predicate Initial(w: World) {
    w.phase.Idle? && !w.registered && w.out == [] && w.conns == map[] && w.taken == {}
  }

  // ---- What every step keeps -------------------------------------------------------------------------------------

  /** Some rejoin JOIN of the connection has not been taken by its writer. */
  predicate JoinsPending(x: Conn) {
    x.toQueue > 0 || Join in x.internal
  }

  /** A writer that has taken a user message while JOINs were pending is not about to take another: the selects it must
      pass first fall through only on an empty internal lane and a live connection. */
  predicate ConnOk(x: Conn) {
    JoinsPending(x) && x.users > 0 ==> x.users == 1 && !x.writer.Third? && (x.toQueue == 0 || x.cancelled)
  }

  /** Once cancelled, a writer may have one more user message in hand from its last select, and never gets back there:
      the selects before it no longer fall through. */
  predicate LateOk(x: Conn) {
    x.late <= 1 && (x.late == 1 ==> x.cancelled && !x.writer.Third?)
  }

  predicate Live(phase: Phase) {
    phase.Connected? || phase.Closing?
  }

  /** Only the current connection of a live phase may be uncancelled. */
  predicate ConnsOk(w: World) {
    && (Live(w.phase) ==> w.current in w.conns)
    && forall c :: c in w.conns ==> c <= w.current && ConnOk(w.conns[c]) && LateOk(w.conns[c])
                                    && (c < w.current || !Live(w.phase) ==> w.conns[c].cancelled)
  }

  /** Everything on the user lane was accepted under the current connection, after its JOINs were queued. */
  predicate LaneOk(w: World) {
    && (w.registered ==> w.phase.Connected? && w.current in w.conns && w.conns[w.current].toQueue == 0)
    && (forall i :: 0 <= i < |w.out| ==> w.out[i] == w.current)
    && (w.out != [] && Live(w.phase) && w.current in w.conns ==> w.conns[w.current].toQueue == 0)
    && (w.phase.Drained? ==> w.out == [])
  }

  /** A message accepted under a later connection than its writer's was that writer's late one. */
  predicate TakenOk(w: World) {
    forall p :: p in w.taken ==> p.0 in w.conns && p.0 <= p.1 <= w.current && (p.0 < p.1 ==> w.conns[p.0].late == 1)
  }

  predicate Inv(w: World) {
    ConnsOk(w) && LaneOk(w) && TakenOk(w)
  }

  lemma TailHas(s: seq<Item>)
    requires s != [] && Join in s[1..]
    ensures Join in s
  {
  }

  lemma WriteConnOk(w: World, c: nat, choice: Choice)
    requires Inv(w) && c in w.conns && CanWrite(w, w.conns[c], choice)
    ensures ConnOk(WriteStep(w, c, choice).conns[c]) && LateOk(WriteStep(w, c, choice).conns[c])
  {
    var x := w.conns[c];
    match choice {
      case Pass => assert Watches(x.writer, Stop) && (x.writer.Second? ==> Watches(x.writer, Internal));
      case Internal => if Join in x.internal[1..] { TailHas(x.internal); }
      case User => assert x.writer.Third? && w.out[0] == w.current;
      case _ =>
    }
  }

  /** Replacing one connection by one that is as far, no less cancelled and no less late. */
  lemma WithKeeps(w: World, c: nat, x: Conn)
    requires Inv(w) && c in w.conns && ConnOk(x) && LateOk(x)
    requires (w.conns[c].cancelled ==> x.cancelled) && x.late == w.conns[c].late && x.toQueue <= w.conns[c].toQueue
    ensures Inv(With(w, c, x))
  {
  }

  lemma TakeKeepsTaken(w: World, c: nat)
    requires Inv(w) && c in w.conns && CanWrite(w, w.conns[c], User)
    ensures TakenOk(WriteStep(w, c, User))
  {
    assert w.out[0] == w.current && w.conns[c].writer.Third?;
  }

  lemma TakeKeeps(w: World, c: nat)
    requires Inv(w) && c in w.conns && CanWrite(w, w.conns[c], User)
    ensures Inv(WriteStep(w, c, User))
  {
    WriteConnOk(w, c, User);
    TakeKeepsTaken(w, c);
  }

  lemma WriteKeeps(w: World, c: nat, choice: Choice)
    requires Inv(w) && c in w.conns && CanWrite(w, w.conns[c], choice)
    ensures Inv(WriteStep(w, c, choice))
  {
    if choice.User? {
      TakeKeeps(w, c);
    } else {
      WriteConnOk(w, c, choice);
      WithKeeps(w, c, WriteStep(w, c, choice).conns[c]);
    }
  }

  lemma PhaseKeeps(w: World, a: Action)
    requires Inv(w) && Enabled(w, a)
    requires a.BeginDrain? || a.DrainOne? || a.EndDrain? || a.DialFailed? || a.Register? || a.SendAll? || a.Unregister?
    ensures Inv(Step(w, a))
  {
  }

  lemma DialKeeps(w: World, rejoins: nat)
    requires Inv(w) && Enabled(w, Dial(rejoins))
    ensures Inv(Step(w, Dial(rejoins)))
  {
  }

  lemma CancelKeeps(w: World)
    requires Inv(w) && Enabled(w, Cancel)
    ensures Inv(Step(w, Cancel))
  {
    WithKeeps(w, w.current, w.conns[w.current].(cancelled := true));
  }

  /** The queueing steps, and what breaks or finishes a connection's write. */
  lemma LaneKeeps(w: World, a: Action)
    requires Inv(w) && Enabled(w, a)
    requires a.QueueControl? || a.QueueUrgent? || a.QueueJoin?
    ensures Inv(Step(w, a))
  {
    var c := if a.QueueJoin? then w.current else a.c;
    WithKeeps(w, c, Step(w, a).conns[c]);
  }

  lemma WrittenKeeps(w: World, a: Action)
    requires Inv(w) && Enabled(w, a)
    requires a.Break? || a.Written?
    ensures Inv(Step(w, a))
  {
    WithKeeps(w, a.c, Step(w, a).conns[a.c]);
  }

  lemma StepKeeps(w: World, a: Action)
    requires Inv(w) && Enabled(w, a)
    ensures Inv(Step(w, a))
  {
    if a.Dial? {
      DialKeeps(w, a.rejoins);
    } else if a.QueueControl? || a.QueueUrgent? || a.QueueJoin? {
      LaneKeeps(w, a);
    } else if a.Cancel? {
      CancelKeeps(w);
    } else if a.Break? || a.Written? {
      WrittenKeeps(w, a);
    } else if a.Write? {
      WriteKeeps(w, a.c, a.choice);
    } else {
      PhaseKeeps(w, a);
    }
  }

  lemma {:induction false} RunKeeps(w: World, run: seq<Action>)
    requires Inv(w) && ValidRun(w, run)
    ensures Inv(Exec(w, run))
    decreases |run|
  {
    if run != [] {
      StepKeeps(w, run[0]);
      RunKeeps(Step(w, run[0]), run[1..]);
    }
  }

  // ---- Over every run ----------------------------------------------------------------------------------------------

  /** No user message accepted under one connection is ever taken by the writer of a later one. */
  lemma NoMessageCrossesReconnect(w: World, run: seq<Action>, writer: nat, accepted: nat)
    requires Initial(w) && ValidRun(w, run) && (writer, accepted) in Exec(w, run).taken
    ensures writer <= accepted
  {
    RunKeeps(w, run);
  }

  /** While a rejoin JOIN of a connection is still to be taken, its writer has taken at most one user message. */
  lemma AtMostOneOvertakesJoins(w: World, run: seq<Action>, c: nat)
    requires Initial(w) && ValidRun(w, run) && c in Exec(w, run).conns && JoinsPending(Exec(w, run).conns[c])
    ensures Exec(w, run).conns[c].users <= 1
  {
    RunKeeps(w, run);
  }

  /** A writer that lingers takes at most one user message after its connection was cancelled, and that is the only
      message it can take that was accepted under a later connection. */
  lemma AtMostOneTakenLate(w: World, run: seq<Action>, c: nat)
    requires Initial(w) && ValidRun(w, run) && c in Exec(w, run).conns
    ensures var x := Exec(w, run).conns[c];
            x.late <= 1 && (c < Exec(w, run).current ==> x.cancelled)
            && forall accepted :: c < accepted && (c, accepted) in Exec(w, run).taken ==> x.late == 1
  {
    RunKeeps(w, run);
  }

  lemma {:induction false} Extend(w: World, run: seq<Action>, a: Action)
    requires ValidRun(w, run) && Enabled(Exec(w, run), a)
    ensures ValidRun(w, run + [a]) && Exec(w, run + [a]) == Step(Exec(w, run), a)
    decreases |run|
  {
    if run == [] {
      assert run + [a] == [a];
    } else {
      Extend(Step(w, run[0]), run[1..], a);
      assert (run + [a])[1..] == run[1..] + [a];
    }
  }

  // ---- Exactly when a JOIN is overtaken --------------------------------------------------------------------------------

  /** Over some continuation the writer takes a user message while a rejoin JOIN of its connection still waits. */
  ghost predicate CanOvertake(w: World, c: nat)
    requires c in w.conns
  {
    exists run :: Overtakes(w, run, c)
  }

  ghost predicate Overtakes(w: World, run: seq<Action>, c: nat)
    requires c in w.conns
  {
    && ValidRun(w, run) && c in Exec(w, run).conns
    && JoinsPending(Exec(w, run).conns[c]) && Exec(w, run).conns[c].users > w.conns[c].users
  }

  predicate NothingToTake(w: World) {
    w.out == [] && w.capacity == 0
  }

  /** With all JOINs queued: while one waits, `users` stays and the writer is not where it could take a user message. */
  predicate Guarded(w: World, c: nat, users: nat) {
    && c in w.conns && c <= w.current && w.conns[c].toQueue == 0
    && (Join in w.conns[c].internal ==>
          w.conns[c].users == users && (!w.conns[c].writer.Third? || NothingToTake(w)))
  }

  /** The second select does not fall through while a JOIN is queued, and no JOIN is queued any more. */
  lemma WriteGuarded(w: World, d: nat, choice: Choice, c: nat, users: nat)
    requires Guarded(w, c, users) && d in w.conns && CanWrite(w, w.conns[d], choice)
    ensures Guarded(WriteStep(w, d, choice), c, users)
  {
    var x := w.conns[d];
    if choice.Pass? {
      assert x.writer.Second? ==> Watches(x.writer, Internal);
    } else if choice.Internal? {
      if Join in x.internal[1..] { TailHas(x.internal); }
    }
  }

  lemma StepGuarded(w: World, a: Action, c: nat, users: nat)
    requires Guarded(w, c, users) && Enabled(w, a)
    ensures Guarded(Step(w, a), c, users)
  {
    if a.Write? {
      WriteGuarded(w, a.c, a.choice, c, users);
    } else if a.SendAll? {
      assert NothingToTake(w) && a.count == 0 ==> w.out + Accepted(w.current, a.count) == [];
    }
  }

  lemma {:induction false} RunGuarded(w: World, run: seq<Action>, c: nat, users: nat)
    requires Guarded(w, c, users) && ValidRun(w, run)
    ensures Guarded(Exec(w, run), c, users)
    decreases |run|
  {
    if run != [] {
      StepGuarded(w, run[0], c, users);
      RunGuarded(Step(w, run[0]), run[1..], c, users);
    }
  }

  /** From the last select with a JOIN queued: register, accept a message if none waits, and take it. */
  lemma OvertakesAt(w: World) returns (run: seq<Action>)
    requires Enabled(w, Register) && Join in w.conns[w.current].internal && w.conns[w.current].writer.Third?
    requires !NothingToTake(w)
    ensures Overtakes(w, run, w.current)
  {
    var c := w.current;
    var w1 := Step(w, Register);
    run := if w.out != [] then [Register] else [Register, SendAll(1)];
    Extend(w, [], Register);
    assert [] + [Register] == [Register];
    if w.out == [] {
      Extend(w, [Register], SendAll(1));
      assert [Register] + [SendAll(1)] == run;
      assert |Accepted(c, 1)| == 1;
    }
    var ready := Exec(w, run);
    assert ready.out != [] && ready.conns == w.conns;
    Extend(w, run, Write(c, User));
    run := run + [Write(c, User)];
  }

  /** When a connection registers, some continuation lets a user message overtake its rejoin JOINs exactly when one of
      them is still queued and its writer, having polled the internal lane before that JOIN was put there, already waits
      at its last select. */
  lemma OvertakeIff(w: World)
    requires Enabled(w, Register)
    ensures CanOvertake(w, w.current) <==>
            Join in w.conns[w.current].internal && w.conns[w.current].writer.Third? && !NothingToTake(w)
  {
    var c := w.current;
    if Join in w.conns[c].internal && w.conns[c].writer.Third? && !NothingToTake(w) {
      var run := OvertakesAt(w);
    } else {
      forall run | ValidRun(w, run) ensures !Overtakes(w, run, c) {
        RunGuarded(w, run, c, w.conns[c].users);
      }
    }
  }

  const START := World(0, Idle, false, [], 512, map[], {})

  /** A connection with one rejoin to make whose writer is at this select. */
  function Polling(pc: Writer): World {
    START.(current := 1, phase := Connected, conns := map[1 := Conn([], HEADROOM + 1, 0, false, pc, 1, 0, 0)])
  }

  lemma Dialled() returns (run: seq<Action>)
    ensures ValidRun(START, run) && Exec(START, run) == Polling(First)
  {
    Extend(START, [], BeginDrain);
    Extend(START, [BeginDrain], EndDrain);
    run := [BeginDrain, EndDrain];
    assert [BeginDrain] + [EndDrain] == run;
    Extend(START, run, Dial(1));
    run := run + [Dial(1)];
  }

  lemma PassesSelect(pc: Writer)
    requires pc.First? || pc.Second?
    ensures Enabled(Polling(pc), Write(1, Pass))
    ensures Step(Polling(pc), Write(1, Pass)) == Polling(if pc.First? then Second else Third)
  {
    assert Polling(pc).conns[1] == Conn([], HEADROOM + 1, 0, false, pc, 1, 0, 0);
  }

  /** The one overtake does happen: the writer has polled an empty internal lane, then the JOIN is queued, the connection
      registers and a message is accepted before its last select. */
  lemma OneOvertakeIsPossible() returns (run: seq<Action>)
    ensures Initial(START) && ValidRun(START, run) && 1 in Exec(START, run).conns
    ensures JoinsPending(Exec(START, run).conns[1]) && Exec(START, run).conns[1].users == 1
  {
    run := Dialled();
    PassesSelect(First);
    Extend(START, run, Write(1, Pass));
    run := run + [Write(1, Pass)];
    PassesSelect(Second);
    Extend(START, run, Write(1, Pass));
    run := run + [Write(1, Pass)];
    run := Overtaken(run);
  }

  lemma Overtaken(polled: seq<Action>) returns (run: seq<Action>)
    requires ValidRun(START, polled) && Exec(START, polled) == Polling(Third)
    ensures ValidRun(START, run) && 1 in Exec(START, run).conns
    ensures JoinsPending(Exec(START, run).conns[1]) && Exec(START, run).conns[1].users == 1
  {
    Extend(START, polled, QueueJoin);
    run := polled + [QueueJoin];
    var y := Conn([Join], HEADROOM + 1, 0, false, Third, 0, 0, 0);
    var queued := Polling(Third).(conns := map[1 := y]);
    assert [] + [Join] == [Join];
    assert Exec(START, run) == queued;
    Extend(START, run, Register);
    run := run + [Register];
    Extend(START, run, SendAll(1));
    run := run + [SendAll(1)];
    assert [] + Accepted(1, 1) == [1];
    assert Exec(START, run) == queued.(registered := true, out := [1]);
    Extend(START, run, Write(1, User));
    run := run + [Write(1, User)];
  }
}
