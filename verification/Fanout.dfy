/** Per-session and global byte reservations under concurrent pushes, receives and disconnects.  Every atomic
    operation of the push, release and disconnect code is one step; steps of different tasks interleave freely. */
module Fanout {
  import opened Wrappers
  import opened Sums

  const SESSION_BUFFER := 64
  const MAX_SESSIONS := 64

  type Id = string

  datatype Config = Config(sessionLimit: int, hubLimit: int)

  datatype Frame = Frame(serial: nat, bytes: int)

  /** sync.Once: untouched, being run by a task, or complete. */
  datatype Once = Never | Running(task: Id) | Complete

  /** `accepted` and `received` are histories: everything ever queued, and everything the transport took from the
      queue, in order. */
  datatype Session = Session(queued: int, out: seq<Frame>, closed: bool, mu: Option<Id>, once: Once,
                             accepted: seq<Frame>, received: seq<Frame>)

  const FRESH := Session(0, [], false, None, Never, [], [])

  /** Which call of pushFrame this is: push's own, pushLocked's first, or the one after an eviction. */
  datatype Stage = Own | Locked | Retry

  /** What a task does after a disconnect returns. */
  datatype Next = Return(target: Id, frame: Frame) | Again(target: Id, frame: Frame) | Nothing

  /** What a task does after a release. */
  datatype After = Pushed | Overfull | Drain(next: Next) | Idling

  datatype Pc =
    | Idle
    | Reserve(s: Id, f: Frame, stage: Stage)
    | ReserveHub(s: Id, f: Frame, stage: Stage)
    | Undo(s: Id, f: Frame, stage: Stage)
    | Refused(s: Id, f: Frame, stage: Stage)
    | Lock(s: Id, f: Frame)
    | Check(s: Id, f: Frame)
    | Send(s: Id, f: Frame)
    | Unlock(s: Id, f: Frame, full: bool)
    | Release(s: Id, f: Frame, after: After)
    | HalfReleased(s: Id, f: Frame, after: After)
    | Disconnect(s: Id, next: Next)
    | Closing(s: Id, next: Next)
    | Draining(s: Id, next: Next)

  /** `returned` records the pushes that have returned to their caller. */
  datatype World = World(sessions: map<string, Session>, registered: set<Id>, hub: int, tasks: map<string, Pc>,
                         serial: nat, returned: set<(Id, Frame)>)

  datatype Action =
    | NewSession(s: Id)
    | Push(t: Id, s: Id, bytes: int, stage: Stage)
    | Close(t: Id, s: Id)
    | Receive(t: Id, s: Id)
    | Advance(t: Id, slowest: Id)

  // ---- Steps ----------------------------------------------------------------------------------------------

  /** reserveBytes: n must be positive and fit under the limit. */
  predicate Fits(counter: int, n: int, limit: int) {
    0 < n <= limit && counter <= limit - n
  }

  function To(w: World, t: Id, pc: Pc): World {
    w.(tasks := w.tasks[t := pc])
  }

  function With(w: World, s: Id, x: Session): World {
    w.(sessions := w.sessions[s := x])
  }

  function Resume(w: World, t: Id, next: Next): World {
    match next
    case Return(s, f) => To(w, t, Idle).(returned := w.returned + {(s, f)})
    case Again(s, f) => To(w, t, Reserve(s, f, Retry))
    case Nothing => To(w, t, Idle)
  }

  /** A task waits for the queue mutex, or for another task's run of the same sync.Once. */
  predicate Ready(w: World, t: Id)
    requires t in w.tasks
  {
    match w.tasks[t]
    case Lock(s, _) => s in w.sessions && w.sessions[s].mu.None?
    case Closing(s, _) => s in w.sessions && w.sessions[s].mu.None?
    case Disconnect(s, _) => s in w.sessions && !w.sessions[s].once.Running?
    case Idle => false
    case pc => pc.s in w.sessions
  }

  function AfterRefusal(w: World, t: Id, s: Id, f: Frame, stage: Stage, slowest: Id): World {
    match stage
    case Own => To(w, t, Reserve(s, f, Locked))
    case Locked =>
      if slowest in w.registered && slowest != s then To(w, t, Disconnect(slowest, Again(s, f)))
      else To(w, t, Disconnect(s, Return(s, f)))
    case Retry => To(w, t, Disconnect(s, Return(s, f)))
  }

  function AfterRelease(w: World, t: Id, s: Id, f: Frame, after: After): World {
    match after
    case Pushed => Resume(w, t, Return(s, f))
    case Overfull => To(w, t, Unlock(s, f, true))
    case Drain(next) => To(w, t, Draining(s, next))
    case Idling => To(w, t, Idle)
  }

  predicate Pushing(pc: Pc) {
    pc.Reserve? || pc.ReserveHub? || pc.Undo? || pc.Refused? || pc.Lock? || pc.Check? || pc.Send? || pc.Unlock?
  }

  /** One step of pushFrame, or of its callers deciding what a refusal costs. */
  function PushStep(cfg: Config, w: World, t: Id, slowest: Id): World
    requires t in w.tasks && Ready(w, t) && Pushing(w.tasks[t])
  {
    var pc := w.tasks[t];
    var x := w.sessions[pc.s];
    match pc
    case Reserve(s, f, stage) =>
      if Fits(x.queued, f.bytes, cfg.sessionLimit)
      then To(With(w, s, x.(queued := x.queued + f.bytes)), t, ReserveHub(s, f, stage))
      else To(w, t, Disconnect(s, Return(s, f)))
    case ReserveHub(s, f, stage) =>
      if Fits(w.hub, f.bytes, cfg.hubLimit)
      then To(w, t, Lock(s, f)).(hub := w.hub + f.bytes)
      else To(w, t, Undo(s, f, stage))
    case Undo(s, f, stage) => To(With(w, s, x.(queued := x.queued - f.bytes)), t, Refused(s, f, stage))
    case Refused(s, f, stage) => AfterRefusal(w, t, s, f, stage, slowest)
    case Lock(s, f) => To(With(w, s, x.(mu := Some(t))), t, Check(s, f))
    case Check(s, f) =>
      if x.closed then To(With(w, s, x.(mu := None)), t, Release(s, f, Pushed)) else To(w, t, Send(s, f))
    case Send(s, f) =>
      if |x.out| < SESSION_BUFFER
      then To(With(w, s, x.(out := x.out + [f], accepted := x.accepted + [f])), t, Unlock(s, f, false))
      else To(w, t, Release(s, f, Overfull))
    case Unlock(s, f, full) =>
      var v := With(w, s, x.(mu := None));
      if full then To(v, t, Disconnect(s, Return(s, f))) else Resume(v, t, Return(s, f))
  }

  predicate Releasing(pc: Pc) {
    pc.Release? || pc.HalfReleased?
  }

  /** Release: the session's counter, then the global one. */
  function ReleaseStep(w: World, t: Id): World
    requires t in w.tasks && Ready(w, t) && Releasing(w.tasks[t])
  {
    var pc := w.tasks[t];
    var x := w.sessions[pc.s];
    match pc
    case Release(s, f, after) => To(With(w, s, x.(queued := x.queued - f.bytes)), t, HalfReleased(s, f, after))
    case HalfReleased(s, f, after) => AfterRelease(w.(hub := w.hub - f.bytes), t, s, f, after)
  }

  /** One step of disconnect. */
  function CloseStep(w: World, t: Id): World
    requires t in w.tasks && Ready(w, t) && !Pushing(w.tasks[t]) && !Releasing(w.tasks[t])
  {
    var pc := w.tasks[t];
    var x := w.sessions[pc.s];
    match pc
    case Disconnect(s, next) =>
      if x.once.Never? then To(With(w, s, x.(once := Running(t))), t, Closing(s, next)) else Resume(w, t, next)
    case Closing(s, next) => To(With(w, s, x.(mu := Some(t), closed := true)), t, Draining(s, next))
    case Draining(s, next) =>
      if x.out == [] then Resume(With(w, s, x.(mu := None, once := Complete)), t, next)
      else To(With(w, s, x.(out := x.out[1..])), t, Release(s, x.out[0], Drain(next)))
  }

  function StepTask(cfg: Config, w: World, t: Id, slowest: Id): World
    requires t in w.tasks && Ready(w, t)
  {
    if Pushing(w.tasks[t]) then PushStep(cfg, w, t, slowest)
    else if Releasing(w.tasks[t]) then ReleaseStep(w, t)
    else CloseStep(w, t)
  }

  predicate Enabled(w: World, a: Action) {
    match a
    case NewSession(s) => s !in w.sessions && |w.registered| < MAX_SESSIONS
    case Push(t, s, _, stage) => t in w.tasks && w.tasks[t].Idle? && s in w.sessions && !stage.Retry?
    case Close(t, s) => t in w.tasks && w.tasks[t].Idle? && s in w.sessions
    case Receive(t, s) => t in w.tasks && w.tasks[t].Idle? && s in w.sessions && w.sessions[s].out != []
    case Advance(t, _) => t in w.tasks && Ready(w, t)
  }

  function Step(cfg: Config, w: World, a: Action): World
    requires Enabled(w, a)
  {
    match a
    case NewSession(s) => With(w, s, FRESH).(registered := w.registered + {s})
    case Push(t, s, bytes, stage) =>
      To(w, t, Reserve(s, Frame(w.serial, bytes), stage)).(serial := w.serial + 1)
    case Close(t, s) => To(w, t, Disconnect(s, Nothing)).(registered := w.registered - {s})
    case Receive(t, s) =>
      var x := w.sessions[s];
      To(With(w, s, x.(out := x.out[1..], received := x.received + [x.out[0]])), t, Release(s, x.out[0], Idling))
    case Advance(t, slowest) => StepTask(cfg, w, t, slowest)
  }

  predicate ValidRun(cfg: Config, w: World, run: seq<Action>)
    decreases |run|
  {
    run == [] || (Enabled(w, run[0]) && ValidRun(cfg, Step(cfg, w, run[0]), run[1..]))
  }

  function Exec(cfg: Config, w: World, run: seq<Action>): World
    requires ValidRun(cfg, w, run)
    decreases |run|
  {
    if run == [] then w else Exec(cfg, Step(cfg, w, run[0]), run[1..])
  }

  /** No session yet, and any number of idle tasks. */
  predicate Initial(w: World) {
    && w.sessions == map[] && w.registered == {} && w.hub == 0 && w.returned == {}
    && forall t :: t in w.tasks ==> w.tasks[t].Idle?
  }

  // ---- Where reserved bytes are ----------------------------------------------------------------------------

  function Bytes(q: seq<Frame>): int {
    if q == [] then 0 else q[0].bytes + Bytes(q[1..])
  }

  lemma {:induction false} BytesAppend(q: seq<Frame>, f: Frame)
    ensures Bytes(q + [f]) == Bytes(q) + f.bytes
  {
    if q != [] {
      assert (q + [f])[1..] == q[1..] + [f];
      BytesAppend(q[1..], f);
    }
  }

  /** Bytes of session s reserved by a task at this point of its code. */
  function SessionShare(pc: Pc, s: Id): int {
    match pc
    case ReserveHub(x, f, _) => if x == s then f.bytes else 0
    case Undo(x, f, _) => if x == s then f.bytes else 0
    case Lock(x, f) => if x == s then f.bytes else 0
    case Check(x, f) => if x == s then f.bytes else 0
    case Send(x, f) => if x == s then f.bytes else 0
    case Release(x, f, _) => if x == s then f.bytes else 0
    case _ => 0
  }

  /** Bytes of the global budget reserved by a task at this point of its code. */
  function HubShare(t: Id, pc: Pc): int {
    match pc
    case Lock(_, f) => f.bytes
    case Check(_, f) => f.bytes
    case Send(_, f) => f.bytes
    case Release(_, f, _) => f.bytes
    case HalfReleased(_, f, _) => f.bytes
    case _ => 0
  }

  ghost function ShareOf(s: Id): (string, Pc) -> int {
    (t, pc) => SessionShare(pc, s)
  }

  function QueueBytes(s: Id, x: Session): int {
    Bytes(x.out)
  }

  /** Each counter is exactly the bytes of the outstanding reservations: frames in queues and tasks in flight. */
  ghost predicate Exact(w: World) {
    && (forall s :: s in w.sessions ==>
          w.sessions[s].queued == Bytes(w.sessions[s].out) + Sum(w.tasks, ShareOf(s)))
    && w.hub == Sum(w.sessions, QueueBytes) + Sum(w.tasks, HubShare)
  }

  // ---- What every step keeps -------------------------------------------------------------------------------

  predicate NextKnown(w: World, next: Next) {
    next.Nothing? || next.target in w.sessions
  }

  /** A task's code position names existing sessions, and any frame it holds reservations for has a positive size. */
  predicate PcKnown(w: World, pc: Pc) {
    pc.Idle? ||
    ( && pc.s in w.sessions
      && (pc.Disconnect? || pc.Closing? || pc.Draining? ==> NextKnown(w, pc.next))
      && ((pc.Release? || pc.HalfReleased?) && pc.after.Drain? ==> NextKnown(w, pc.after.next))
      && (pc.ReserveHub? || pc.Undo? || pc.Lock? || pc.Check? || pc.Send? || pc.Release? || pc.HalfReleased?
          ==> pc.f.bytes > 0))
  }

  predicate Known(w: World) {
    && (forall t :: t in w.tasks ==> PcKnown(w, w.tasks[t]))
    && (forall s, i :: s in w.sessions && 0 <= i < |w.sessions[s].out| ==> w.sessions[s].out[i].bytes > 0)
    && w.registered <= w.sessions.Keys
  }

  /** What holding the queue mutex or running the Once means for the session a task is at. */
  predicate TaskHolds(t: Id, pc: Pc, x: Session) {
    match pc
    case Check(_, _) => x.mu == Some(t)
    case Send(_, _) => x.mu == Some(t) && !x.closed
    case Unlock(_, f, full) => x.mu == Some(t) && (!full ==> f in x.accepted)
    case Closing(_, _) => x.once == Running(t)
    case Draining(_, _) => x.once == Running(t) && x.mu == Some(t) && x.closed
    case Release(_, _, after) => ReleaseHolds(t, after, x)
    case HalfReleased(_, _, after) => ReleaseHolds(t, after, x)
    case _ => true
  }

  predicate ReleaseHolds(t: Id, after: After, x: Session) {
    match after
    case Pushed => x.closed
    case Overfull => x.mu == Some(t)
    case Drain(_) => x.once == Running(t) && x.mu == Some(t) && x.closed
    case Idling => true
  }

  /** A disconnect that will report a push as returned is a disconnect of that push's session. */
  predicate NextMatches(s: Id, next: Next) {
    next.Return? ==> next.target == s
  }

  predicate PcMatches(pc: Pc) {
    && (pc.Disconnect? || pc.Closing? || pc.Draining? ==> NextMatches(pc.s, pc.next))
    && ((pc.Release? || pc.HalfReleased?) && pc.after.Drain? ==> NextMatches(pc.s, pc.after.next))
  }

  /** While a session is open nothing leaves its queue except to the transport; once closed it ends up empty. */
  predicate SessionSound(x: Session) {
    && (!x.closed ==> x.received + x.out == x.accepted && !x.once.Complete?)
    && (x.once.Complete? ==> x.out == [])
  }

  predicate Disciplined(w: World) {
    && (forall t :: t in w.tasks && !w.tasks[t].Idle? ==>
          w.tasks[t].s in w.sessions && TaskHolds(t, w.tasks[t], w.sessions[w.tasks[t].s]) && PcMatches(w.tasks[t]))
    && (forall s :: s in w.sessions ==> SessionSound(w.sessions[s]))
    && (forall p :: p in w.returned ==>
          p.0 in w.sessions && (p.1 in w.sessions[p.0].accepted || w.sessions[p.0].closed))
  }

  predicate Within(cfg: Config, w: World) {
    w.hub <= cfg.hubLimit && forall s :: s in w.sessions ==> w.sessions[s].queued <= cfg.sessionLimit
  }

  // ---- Exactness --------------------------------------------------------------------------------------------

  /** The step changes task t, session s and the global counter only, each counter by what the shares move by. */
  ghost predicate Moves(w: World, v: World, t: Id, s: Id) {
    && t in w.tasks && s in w.sessions && t in v.tasks && s in v.sessions
    && v.tasks == w.tasks[t := v.tasks[t]] && v.sessions == w.sessions[s := v.sessions[s]]
    && (forall r :: r != s ==> SessionShare(v.tasks[t], r) == SessionShare(w.tasks[t], r))
    && v.sessions[s].queued - w.sessions[s].queued
       == Bytes(v.sessions[s].out) - Bytes(w.sessions[s].out)
          + SessionShare(v.tasks[t], s) - SessionShare(w.tasks[t], s)
    && v.hub - w.hub
       == Bytes(v.sessions[s].out) - Bytes(w.sessions[s].out) + HubShare(t, v.tasks[t]) - HubShare(t, w.tasks[t])
  }

  lemma MovesKeepExact(w: World, v: World, t: Id, s: Id)
    requires Exact(w) && Moves(w, v, t, s)
    ensures Exact(v)
  {
    forall r | r in v.sessions
      ensures v.sessions[r].queued == Bytes(v.sessions[r].out) + Sum(v.tasks, ShareOf(r))
    {
      SumUpdated(w.tasks, ShareOf(r), t, v.tasks[t]);
    }
    SumUpdated(w.tasks, HubShare, t, v.tasks[t]);
    SumUpdated(w.sessions, QueueBytes, s, v.sessions[s]);
  }

  lemma PushMoves(cfg: Config, w: World, t: Id, slowest: Id)
    requires t in w.tasks && Ready(w, t) && Pushing(w.tasks[t])
    ensures Moves(w, PushStep(cfg, w, t, slowest), t, w.tasks[t].s)
  {
    var v := PushStep(cfg, w, t, slowest);
    var pc := w.tasks[t];
    if pc.Send? { BytesAppend(w.sessions[pc.s].out, pc.f); }
    assert v.sessions == w.sessions[pc.s := v.sessions[pc.s]];
  }

  lemma ReleaseMoves(w: World, t: Id)
    requires t in w.tasks && Ready(w, t) && Releasing(w.tasks[t])
    ensures Moves(w, ReleaseStep(w, t), t, w.tasks[t].s)
  {
    var v := ReleaseStep(w, t);
    var s := w.tasks[t].s;
    assert v.sessions == w.sessions[s := v.sessions[s]];
  }

  lemma CloseMoves(w: World, t: Id)
    requires t in w.tasks && Ready(w, t) && !Pushing(w.tasks[t]) && !Releasing(w.tasks[t])
    ensures Moves(w, CloseStep(w, t), t, w.tasks[t].s)
  {
    var v := CloseStep(w, t);
    var s := w.tasks[t].s;
    assert v.sessions == w.sessions[s := v.sessions[s]];
  }

  lemma OtherMoves(cfg: Config, w: World, a: Action)
    requires Enabled(w, a) && (a.Push? || a.Close? || a.Receive?)
    ensures Moves(w, Step(cfg, w, a), a.t, a.s)
  {
    var v := Step(cfg, w, a);
    assert v.sessions == w.sessions[a.s := v.sessions[a.s]];
  }

  lemma NewSessionExact(w: World, s: Id, v: World)
    requires Exact(w) && Known(w) && s !in w.sessions
    requires v.sessions == w.sessions[s := FRESH] && v.tasks == w.tasks && v.hub == w.hub
    ensures Exact(v)
  {
    SumUpdated(w.sessions, QueueBytes, s, FRESH);
    assert forall t :: t in w.tasks ==> PcKnown(w, w.tasks[t]);
    SumZero(w.tasks, ShareOf(s));
  }

  lemma StepExact(cfg: Config, w: World, a: Action)
    requires Exact(w) && Known(w) && Enabled(w, a)
    ensures Exact(Step(cfg, w, a))
  {
    if a.NewSession? {
      NewSessionExact(w, a.s, Step(cfg, w, a));
    } else if a.Advance? {
      if Pushing(w.tasks[a.t]) {
        PushMoves(cfg, w, a.t, a.slowest);
      } else if Releasing(w.tasks[a.t]) {
        ReleaseMoves(w, a.t);
      } else {
        CloseMoves(w, a.t);
      }
      MovesKeepExact(w, StepTask(cfg, w, a.t, a.slowest), a.t, w.tasks[a.t].s);
    } else {
      OtherMoves(cfg, w, a);
      MovesKeepExact(w, Step(cfg, w, a), a.t, a.s);
    }
  }

  // ---- Known and within limits -------------------------------------------------------------------------------

  /** A step at task t and session s keeps Known when the task's new position is known and the queue is positive. */
  lemma KnownKept(w: World, v: World, t: Id, s: Id)
    requires Known(w) && t in w.tasks && s in w.sessions && t in v.tasks && s in v.sessions
    requires v.tasks == w.tasks[t := v.tasks[t]] && v.sessions == w.sessions[s := v.sessions[s]]
    requires PcKnown(v, v.tasks[t]) && v.registered <= w.registered
    requires forall i :: 0 <= i < |v.sessions[s].out| ==> v.sessions[s].out[i].bytes > 0
    ensures Known(v)
  {
    forall u | u in v.tasks ensures PcKnown(v, v.tasks[u]) {
      if u != t { assert PcKnown(w, w.tasks[u]); }
    }
  }

  lemma PushKnown(cfg: Config, w: World, t: Id, slowest: Id)
    requires Known(w) && t in w.tasks && Ready(w, t) && Pushing(w.tasks[t])
    ensures Known(PushStep(cfg, w, t, slowest))
  {
    var v := PushStep(cfg, w, t, slowest);
    var pc := w.tasks[t];
    assert PcKnown(w, pc);
    assert v.sessions == w.sessions[pc.s := v.sessions[pc.s]];
    KnownKept(w, v, t, pc.s);
  }

  lemma ReleaseKnown(w: World, t: Id)
    requires Known(w) && t in w.tasks && Ready(w, t) && Releasing(w.tasks[t])
    ensures Known(ReleaseStep(w, t))
  {
    var v := ReleaseStep(w, t);
    var pc := w.tasks[t];
    assert PcKnown(w, pc);
    assert v.sessions == w.sessions[pc.s := v.sessions[pc.s]];
    KnownKept(w, v, t, pc.s);
  }

  lemma CloseKnown(w: World, t: Id)
    requires Known(w) && t in w.tasks && Ready(w, t) && !Pushing(w.tasks[t]) && !Releasing(w.tasks[t])
    ensures Known(CloseStep(w, t))
  {
    var v := CloseStep(w, t);
    var pc := w.tasks[t];
    assert PcKnown(w, pc);
    assert v.sessions == w.sessions[pc.s := v.sessions[pc.s]];
    KnownKept(w, v, t, pc.s);
  }

  lemma StepKnown(cfg: Config, w: World, a: Action)
    requires Known(w) && Enabled(w, a)
    ensures Known(Step(cfg, w, a))
  {
    var v := Step(cfg, w, a);
    if a.NewSession? {
      assert forall t :: t in v.tasks ==> PcKnown(w, w.tasks[t]);
    } else if a.Advance? {
      if Pushing(w.tasks[a.t]) {
        PushKnown(cfg, w, a.t, a.slowest);
      } else if Releasing(w.tasks[a.t]) {
        ReleaseKnown(w, a.t);
      } else {
        CloseKnown(w, a.t);
      }
    } else {
      assert v.sessions == w.sessions[a.s := v.sessions[a.s]];
      KnownKept(w, v, a.t, a.s);
    }
  }

  lemma WithinKept(cfg: Config, w: World, v: World, s: Id)
    requires Within(cfg, w) && s in v.sessions && v.sessions == w.sessions[s := v.sessions[s]]
    requires v.sessions[s].queued <= cfg.sessionLimit && v.hub <= cfg.hubLimit
    ensures Within(cfg, v)
  {
  }

  lemma PushWithin(cfg: Config, w: World, t: Id, slowest: Id)
    requires Known(w) && Within(cfg, w) && t in w.tasks && Ready(w, t) && Pushing(w.tasks[t])
    ensures Within(cfg, PushStep(cfg, w, t, slowest))
  {
    assert PcKnown(w, w.tasks[t]);
    PushMoves(cfg, w, t, slowest);
    WithinKept(cfg, w, PushStep(cfg, w, t, slowest), w.tasks[t].s);
  }

  lemma ReleaseWithin(cfg: Config, w: World, t: Id)
    requires Known(w) && Within(cfg, w) && t in w.tasks && Ready(w, t) && Releasing(w.tasks[t])
    ensures Within(cfg, ReleaseStep(w, t))
  {
    assert PcKnown(w, w.tasks[t]);
    ReleaseMoves(w, t);
    WithinKept(cfg, w, ReleaseStep(w, t), w.tasks[t].s);
  }

  lemma CloseWithin(cfg: Config, w: World, t: Id)
    requires Within(cfg, w) && t in w.tasks && Ready(w, t) && !Pushing(w.tasks[t]) && !Releasing(w.tasks[t])
    ensures Within(cfg, CloseStep(w, t))
  {
    CloseMoves(w, t);
    WithinKept(cfg, w, CloseStep(w, t), w.tasks[t].s);
  }

  lemma StepWithin(cfg: Config, w: World, a: Action)
    requires Known(w) && Within(cfg, w) && Enabled(w, a) && cfg.sessionLimit >= 0
    ensures Within(cfg, Step(cfg, w, a))
  {
    if a.Advance? {
      if Pushing(w.tasks[a.t]) {
        PushWithin(cfg, w, a.t, a.slowest);
      } else if Releasing(w.tasks[a.t]) {
        ReleaseWithin(cfg, w, a.t);
      } else {
        CloseWithin(cfg, w, a.t);
      }
    } else {
      WithinKept(cfg, w, Step(cfg, w, a), a.s);
    }
  }

  // ---- Locks, the Once, and what has been queued ---------------------------------------------------------------

  /** How a session may change under the feet of the other tasks at it. */
  predicate Respects(t: Id, x: Session, y: Session) {
    && (x.mu != y.mu ==> x.mu.None? || x.mu == Some(t))
    && (x.once != y.once ==> x.once.Never? || x.once == Running(t))
    && (x.closed ==> y.closed) && x.accepted <= y.accepted
    && (y.closed && !x.closed ==> x.mu.None?)
    && SessionSound(y)
  }

  lemma HoldsKept(t: Id, u: Id, pc: Pc, x: Session, y: Session)
    requires Respects(t, x, y) && u != t && TaskHolds(u, pc, x)
    ensures TaskHolds(u, pc, y)
  {
  }

  lemma DisciplineKept(w: World, v: World, t: Id, s: Id)
    requires Disciplined(w) && t in w.tasks && s in w.sessions && t in v.tasks && s in v.sessions
    requires v.tasks == w.tasks[t := v.tasks[t]] && v.sessions == w.sessions[s := v.sessions[s]]
    requires Respects(t, w.sessions[s], v.sessions[s])
    requires !v.tasks[t].Idle? ==> v.tasks[t].s in v.sessions && PcMatches(v.tasks[t])
                                   && TaskHolds(t, v.tasks[t], v.sessions[v.tasks[t].s])
    requires forall p :: p in v.returned && p !in w.returned ==>
               p.0 in v.sessions && (p.1 in v.sessions[p.0].accepted || v.sessions[p.0].closed)
    ensures Disciplined(v)
  {
    forall u | u in v.tasks && !v.tasks[u].Idle?
      ensures v.tasks[u].s in v.sessions && TaskHolds(u, v.tasks[u], v.sessions[v.tasks[u].s]) && PcMatches(v.tasks[u])
    {
      if u != t && v.tasks[u].s == s { HoldsKept(t, u, v.tasks[u], w.sessions[s], v.sessions[s]); }
    }
    forall p | p in v.returned
      ensures p.0 in v.sessions && (p.1 in v.sessions[p.0].accepted || v.sessions[p.0].closed)
    {
    }
  }

  predicate Queueing(pc: Pc) {
    pc.Lock? || pc.Check? || pc.Send? || pc.Unlock?
  }

  lemma ReserveDiscipline(cfg: Config, w: World, t: Id, slowest: Id)
    requires Disciplined(w) && Known(w) && t in w.tasks && Ready(w, t)
    requires Pushing(w.tasks[t]) && !Queueing(w.tasks[t])
    ensures Disciplined(PushStep(cfg, w, t, slowest))
  {
    var s := w.tasks[t].s;
    PushMoves(cfg, w, t, slowest);
    assert PcKnown(w, w.tasks[t]) && SessionSound(w.sessions[s]);
    DisciplineKept(w, PushStep(cfg, w, t, slowest), t, s);
  }

  lemma QueueDiscipline(cfg: Config, w: World, t: Id, slowest: Id)
    requires Disciplined(w) && t in w.tasks && Ready(w, t) && Queueing(w.tasks[t])
    ensures Disciplined(PushStep(cfg, w, t, slowest))
  {
    var s := w.tasks[t].s;
    PushMoves(cfg, w, t, slowest);
    assert SessionSound(w.sessions[s]);
    DisciplineKept(w, PushStep(cfg, w, t, slowest), t, s);
  }

  lemma ReleaseDiscipline(w: World, t: Id)
    requires Disciplined(w) && Known(w) && t in w.tasks && Ready(w, t) && Releasing(w.tasks[t])
    ensures Disciplined(ReleaseStep(w, t))
  {
    var s := w.tasks[t].s;
    ReleaseMoves(w, t);
    assert PcKnown(w, w.tasks[t]) && SessionSound(w.sessions[s]);
    DisciplineKept(w, ReleaseStep(w, t), t, s);
  }

  lemma CloseDiscipline(w: World, t: Id)
    requires Disciplined(w) && Known(w) && t in w.tasks && Ready(w, t) && !Pushing(w.tasks[t]) && !Releasing(w.tasks[t])
    ensures Disciplined(CloseStep(w, t))
  {
    var s := w.tasks[t].s;
    CloseMoves(w, t);
    assert PcKnown(w, w.tasks[t]) && SessionSound(w.sessions[s]);
    DisciplineKept(w, CloseStep(w, t), t, s);
  }

  lemma StepDiscipline(cfg: Config, w: World, a: Action)
    requires Disciplined(w) && Known(w) && Enabled(w, a)
    ensures Disciplined(Step(cfg, w, a))
  {
    if a.Advance? {
      if Pushing(w.tasks[a.t]) {
        if Queueing(w.tasks[a.t]) {
          QueueDiscipline(cfg, w, a.t, a.slowest);
        } else {
          ReserveDiscipline(cfg, w, a.t, a.slowest);
        }
      } else if Releasing(w.tasks[a.t]) {
        ReleaseDiscipline(w, a.t);
      } else {
        CloseDiscipline(w, a.t);
      }
    } else if !a.NewSession? {
      OtherMoves(cfg, w, a);
      DisciplineKept(w, Step(cfg, w, a), a.t, a.s);
    }
  }

  // ---- Whole runs ---------------------------------------------------------------------------------------------

  ghost predicate Inv(cfg: Config, w: World) {
    Exact(w) && Known(w) && Within(cfg, w) && Disciplined(w)
  }

  lemma InitialInv(cfg: Config, w: World)
    requires Initial(w) && cfg.sessionLimit >= 0 && cfg.hubLimit >= 0
    ensures Inv(cfg, w)
  {
    SumZero(w.tasks, HubShare);
  }

  lemma {:induction false} RunInv(cfg: Config, w: World, run: seq<Action>)
    requires Inv(cfg, w) && ValidRun(cfg, w, run) && cfg.sessionLimit >= 0
    ensures Inv(cfg, Exec(cfg, w, run))
    decreases |run|
  {
    if run != [] {
      StepExact(cfg, w, run[0]);
      StepKnown(cfg, w, run[0]);
      StepWithin(cfg, w, run[0]);
      StepDiscipline(cfg, w, run[0]);
      RunInv(cfg, Step(cfg, w, run[0]), run[1..]);
    }
  }

  lemma {:induction false} BytesPositive(q: seq<Frame>)
    requires forall i :: 0 <= i < |q| ==> q[i].bytes > 0
    ensures 0 <= Bytes(q) && (Bytes(q) == 0 ==> q == [])
  {
    if q != [] { BytesPositive(q[1..]); }
  }

  /** Over every interleaving from the start: each counter equals its outstanding reservations, and lies between zero
      and its limit. */
  lemma CountersExactAndBounded(cfg: Config, w: World, run: seq<Action>)
    requires Initial(w) && ValidRun(cfg, w, run) && cfg.sessionLimit >= 0 && cfg.hubLimit >= 0
    ensures Exact(Exec(cfg, w, run))
    ensures 0 <= Exec(cfg, w, run).hub <= cfg.hubLimit
    ensures forall s :: s in Exec(cfg, w, run).sessions ==>
              0 <= Exec(cfg, w, run).sessions[s].queued <= cfg.sessionLimit
  {
    InitialInv(cfg, w);
    RunInv(cfg, w, run);
    var v := Exec(cfg, w, run);
    assert forall t :: t in v.tasks ==> PcKnown(v, v.tasks[t]);
    forall s | s in v.sessions ensures 0 <= v.sessions[s].queued && 0 <= QueueBytes(s, v.sessions[s]) {
      BytesPositive(v.sessions[s].out);
      SumNonNegative(v.tasks, ShareOf(s));
    }
    SumNonNegative(v.tasks, HubShare);
    SumNonNegative(v.sessions, QueueBytes);
  }

  /** When no operation is in flight nothing is leaked: each session's counter is exactly its queue, and once every
      session is disconnected the global counter is back to zero. */
  lemma NothingLeaks(cfg: Config, w: World, run: seq<Action>)
    requires Initial(w) && ValidRun(cfg, w, run) && cfg.sessionLimit >= 0 && cfg.hubLimit >= 0
    requires forall t :: t in Exec(cfg, w, run).tasks ==> Exec(cfg, w, run).tasks[t].Idle?
    ensures forall s :: s in Exec(cfg, w, run).sessions ==>
              Exec(cfg, w, run).sessions[s].queued == Bytes(Exec(cfg, w, run).sessions[s].out)
    ensures (forall s :: s in Exec(cfg, w, run).sessions ==> Exec(cfg, w, run).sessions[s].once.Complete?)
            ==> Exec(cfg, w, run).hub == 0
  {
    InitialInv(cfg, w);
    RunInv(cfg, w, run);
    var v := Exec(cfg, w, run);
    forall s | s in v.sessions ensures v.sessions[s].queued == Bytes(v.sessions[s].out) {
      SumZero(v.tasks, ShareOf(s));
    }
    SumZero(v.tasks, HubShare);
    if forall s :: s in v.sessions ==> v.sessions[s].once.Complete? {
      assert forall s :: s in v.sessions ==> SessionSound(v.sessions[s]);
      SumZero(v.sessions, QueueBytes);
    }
  }

  /** A session that is still open has missed nothing: every push to it that returned put its frame in the queue, and
      the frames queued so far are, in order, those the transport took followed by those still waiting. */
  lemma OpenSessionHasNoGap(cfg: Config, w: World, run: seq<Action>, s: Id)
    requires Initial(w) && ValidRun(cfg, w, run) && cfg.sessionLimit >= 0 && cfg.hubLimit >= 0
    requires s in Exec(cfg, w, run).sessions && !Exec(cfg, w, run).sessions[s].closed
    ensures forall f :: (s, f) in Exec(cfg, w, run).returned ==> f in Exec(cfg, w, run).sessions[s].accepted
    ensures Exec(cfg, w, run).sessions[s].accepted
            == Exec(cfg, w, run).sessions[s].received + Exec(cfg, w, run).sessions[s].out
  {
    InitialInv(cfg, w);
    RunInv(cfg, w, run);
    assert SessionSound(Exec(cfg, w, run).sessions[s]);
  }

  // ---- The same code run without interference ---------------------------------------------------------------

  /** The frames added to a queue since it was x, unless the session is disconnected by now. */
  predicate Gained(x: Session, y: Session, frames: seq<Frame>) {
    (x.closed ==> y.closed) && (y.closed || y.out == x.out + frames)
  }

  lemma GainedThen(x: Session, y: Session, z: Session, f: Frame)
    requires Gained(x, y, []) && Gained(y, z, [f])
    ensures Gained(x, z, [f])
  {
  }

  lemma GainedKept(x: Session, y: Session, z: Session, frames: seq<Frame>)
    requires Gained(x, y, frames) && (z == y || z.closed)
    ensures Gained(x, z, frames)
  {
  }

  /** The hub's queues with no other task in flight: who is queued, who is evicted, and why. */
  class Hub {
    const cfg: Config
    var sessions: map<string, Session>
    var registered: set<Id>
    var queuedBytes: int

    constructor (cfg: Config)
      requires cfg.sessionLimit >= 0 && cfg.hubLimit >= 0
      ensures Valid() && this.cfg == cfg && sessions == map[] && registered == {}
    {
      this.cfg := cfg;
      sessions, registered, queuedBytes := map[], {}, 0;
    }

    /** Counters are the bytes queued, within their limits; a closed session has nothing queued. */
    ghost predicate Valid()
      reads this
    {
      && cfg.sessionLimit >= 0 && registered <= sessions.Keys
      && queuedBytes == Sum(sessions, QueueBytes) <= cfg.hubLimit
      && forall s :: s in sessions ==> SessionValid(sessions[s])
    }

    ghost predicate SessionValid(x: Session) {
      && 0 <= x.queued == Bytes(x.out) <= cfg.sessionLimit && |x.out| <= SESSION_BUFFER
      && (x.closed ==> x.out == [])
    }

    /** Everything but session s is as it was. */
    twostate predicate OnlyAt(s: Id)
      reads this
    {
      registered == old(registered) && sessions.Keys == old(sessions).Keys
      && forall r :: r in sessions && r != s ==> sessions[r] == old(sessions)[r]
    }

    method NewSession(s: Id) returns (ok: bool)
      requires Valid() && s !in sessions
      modifies this
      ensures Valid() && (ok <==> |old(registered)| < MAX_SESSIONS)
      ensures ok ==> sessions == old(sessions)[s := FRESH] && registered == old(registered) + {s}
      ensures !ok ==> sessions == old(sessions) && registered == old(registered)
    {
      ok := |registered| < MAX_SESSIONS;
      if ok {
        SumUpdated(sessions, QueueBytes, s, FRESH);
        sessions := sessions[s := FRESH];
        registered := registered + {s};
      }
    }

    /** disconnect: the session ends closed and empty, and its backlog leaves the global counter. */
    method DisconnectSession(s: Id)
      requires Valid() && s in sessions
      modifies this
      ensures Valid() && OnlyAt(s) && sessions[s].closed && sessions[s].out == []
      ensures queuedBytes == old(queuedBytes) - old(sessions)[s].queued
    {
      if !sessions[s].closed {
        var x := sessions[s].(closed := true);
        var total := queuedBytes;
        while x.out != []
          invariant x.queued == Bytes(x.out) && x.closed
          invariant total - x.queued == queuedBytes - sessions[s].queued
          decreases |x.out|
        {
          var f := x.out[0];
          x := x.(out := x.out[1..], queued := x.queued - f.bytes);
          total := total - f.bytes;
        }
        SumUpdated(sessions, QueueBytes, s, x);
        sessions, queuedBytes := sessions[s := x], total;
      }
    }

    /** pushFrame: refused only by the global budget, and then nothing changed; otherwise the frame is the last one
        queued, or the session is over its own limits, or closed already, and is left disconnected. */
    method PushFrame(s: Id, f: Frame) returns (admitted: bool)
      requires Valid() && s in sessions
      modifies this
      ensures Valid() && OnlyAt(s)
      ensures !admitted <==> Fits(old(sessions)[s].queued, f.bytes, cfg.sessionLimit)
                             && !Fits(old(queuedBytes), f.bytes, cfg.hubLimit)
      ensures !admitted ==> sessions == old(sessions) && queuedBytes == old(queuedBytes)
      ensures admitted && !sessions[s].closed <==>
                !old(sessions)[s].closed && |old(sessions)[s].out| < SESSION_BUFFER
                && Fits(old(sessions)[s].queued, f.bytes, cfg.sessionLimit)
                && Fits(old(queuedBytes), f.bytes, cfg.hubLimit)
      ensures admitted ==> Gained(old(sessions)[s], sessions[s], [f])
      ensures admitted && sessions[s].closed ==> queuedBytes == old(queuedBytes) - old(sessions)[s].queued
    {
      var x := sessions[s];
      if !Fits(x.queued, f.bytes, cfg.sessionLimit) {
        DisconnectSession(s);
        return true;
      }
      if !Fits(queuedBytes, f.bytes, cfg.hubLimit) {
        return false;
      }
      if x.closed {
        return true;
      }
      if |x.out| < SESSION_BUFFER {
        BytesAppend(x.out, f);
        var y := x.(queued := x.queued + f.bytes, out := x.out + [f], accepted := x.accepted + [f]);
        SumUpdated(sessions, QueueBytes, s, y);
        sessions, queuedBytes := sessions[s := y], queuedBytes + f.bytes;
      } else {
        DisconnectSession(s);
      }
      return true;
    }

    /** slowestLocked: a registered session with the largest positive backlog, or none if no backlog exists. */
    method SlowestLocked() returns (slowest: Option<Id>)
      requires Valid()
      ensures slowest.Some? ==> slowest.value in registered && sessions[slowest.value].queued > 0
      ensures slowest.Some? ==> forall r :: r in registered ==> sessions[r].queued <= sessions[slowest.value].queued
      ensures slowest.None? ==> forall r :: r in registered ==> sessions[r].queued == 0
    {
      slowest := None;
      var most := 0;
      var todo := registered;
      while todo != {}
        invariant todo <= registered && most >= 0
        invariant forall r :: r in registered - todo ==> sessions[r].queued <= most
        invariant if slowest.None? then most == 0
                  else slowest.value in registered && most > 0 && sessions[slowest.value].queued == most
        decreases todo
      {
        var s :| s in todo;
        if sessions[s].queued > most {
          slowest, most := Some(s), sessions[s].queued;
        }
        todo := todo - {s};
      }
      assert forall r :: r in registered ==> r in registered - todo && SessionValid(sessions[r]);
    }

    /** pushLocked: the frame is queued to s or s is disconnected; at most one other session is disconnected, and only
        when the global budget refused the frame and no registered session held a larger backlog. */
    method PushLocked(s: Id, f: Frame) returns (ghost victim: Option<Id>)
      requires Valid() && s in sessions
      modifies this
      ensures Valid() && registered == old(registered) && sessions.Keys == old(sessions).Keys
      ensures Gained(old(sessions)[s], sessions[s], [f])
      ensures forall r :: r in sessions && r != s && victim != Some(r) ==> sessions[r] == old(sessions)[r]
      ensures victim.Some? ==> victim.value in registered && victim.value != s && sessions[victim.value].closed
      ensures victim.Some? ==> !Fits(old(queuedBytes), f.bytes, cfg.hubLimit)
      ensures victim.Some? ==>
                forall q :: q in registered ==> old(sessions)[q].queued <= old(sessions)[victim.value].queued
    {
      victim := None;
      var admitted := PushFrame(s, f);
      if admitted {
        return;
      }
      var slowest := SlowestLocked();
      if slowest.Some? && slowest.value != s {
        victim := slowest;
        DisconnectSession(slowest.value);
        admitted := PushFrame(s, f);
        if admitted {
          return;
        }
      }
      DisconnectSession(s);
    }

    /** broadcast and broadcastExcept: afterwards every registered session but the excepted one has the frame as its
        last, behind exactly what it had queued, or is disconnected; nobody else gets a frame. */
    method Broadcast(f: Frame, except: Option<Id>)
      requires Valid()
      modifies this
      ensures Valid() && registered == old(registered) && sessions.Keys == old(sessions).Keys
      ensures forall r :: r in registered && except != Some(r) ==> Gained(old(sessions)[r], sessions[r], [f])
      ensures forall r :: r in sessions && (r !in registered || except == Some(r)) ==>
                Gained(old(sessions)[r], sessions[r], [])
    {
      var todo := registered - if except.Some? then {except.value} else {};
      ghost var all := todo;
      while todo != {}
        invariant Valid() && registered == old(registered) && sessions.Keys == old(sessions).Keys
        invariant todo <= all <= registered
        invariant forall r :: r in all - todo ==> Gained(old(sessions)[r], sessions[r], [f])
        invariant forall r :: r in sessions && r !in all - todo ==> Gained(old(sessions)[r], sessions[r], [])
        decreases todo
      {
        var s :| s in todo;
        ghost var before := sessions;
        ghost var victim := PushLocked(s, f);
        assert forall r :: r in sessions && r != s ==> sessions[r] == before[r] || sessions[r].closed;
        GainedThen(old(sessions)[s], before[s], sessions[s], f);
        forall r | r in all - todo ensures Gained(old(sessions)[r], sessions[r], [f]) {
          GainedKept(old(sessions)[r], before[r], sessions[r], [f]);
        }
        forall r | r in sessions && r != s && r !in all - todo ensures Gained(old(sessions)[r], sessions[r], []) {
          GainedKept(old(sessions)[r], before[r], sessions[r], []);
        }
        todo := todo - {s};
      }
    }
  }
}
