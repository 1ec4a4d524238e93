/** Password rotation against logins, push subscriptions and push deliveries.  Each step is one atomic operation of
    the handlers or of a delivery worker; tasks interleave freely.  Hash versions and credential generations are both
    numbered by the rotation that introduced them, starting from 0. */
module Rotation {
  import opened Wrappers

  type Id = string
  type Token = string
  type Endpoint = string

  /** How a live session came about: the generation it was issued under and the hash version it was verified against. */
  datatype Mint = Mint(generation: nat, verified: nat)

  /** What a delivery worker took from the store: the subscriptions with the generation of the session that stored
      each, how many removals and how many rotations had happened by then. */
  datatype Slice = Slice(subs: map<Endpoint, nat>, removals: nat, wipes: nat)

  datatype Pc =
    | Idle
    // handleLogin
    | Snapshot(generation: nat)
    | Verified(generation: nat, hash: nat)
    | Rechecked(generation: nat, hash: nat)
    // handleChangePassword: password mutex held from here, push barrier from Barred on
    | Admitted(token: Token)
    | Authorized
    | Barred
    | Committed(removal: nat)
    | Swapped(removal: nat)
    | EpochMoved(removal: nat)
    | Cancelled(removal: nat)
    | Revoked
    // handleLogout: push barrier held
    | Leaving(token: Token)
    | Left
    | Removing(endpoint: Endpoint)
    | Removed(removal: nat)
    | RemovedMoved(removal: nat)
    // handlePushSubscribe and handlePushUnsubscribe: push barrier held
    | Subscribing(token: Token, endpoint: Endpoint)
    | Storing(endpoint: Endpoint, generation: nat)
    | Unsubscribing(token: Token, endpoint: Endpoint)
    | Erasing(endpoint: Endpoint)
    // deliverPush
    | Loaded(epoch: nat)
    | Read(epoch: nat, slice: Slice)
    | Scoped(epoch: nat, slice: Slice, context: nat)
    | Cleared(epoch: nat, slice: Slice, context: nat)
    | Sending(epoch: nat, slice: Slice, context: nat)

  /** `context` is the current delivery generation context; `cancelled` the contexts cancelled so far.  `removals`
      counts subscription removals that are followed by an epoch bump, `rotations[i]` is the removal number of rotation
      i + 1, `moved` and `settled` are the removals whose bump has advanced the epoch, and has returned. */
  datatype World = World(hash: nat, generation: nat, tokens: map<Token, Mint>, subs: map<Endpoint, nat>,
                         passwordMu: Option<Id>, barrier: Option<Id>, tasks: map<Id, Pc>,
                         epoch: nat, context: nat, cancelled: set<nat>,
                         removals: nat, rotations: seq<nat>, moved: set<nat>, settled: set<nat>, finished: nat)

  datatype Action =
    | Login(t: Id)
    | ChangePassword(t: Id, token: Token)
    | Logout(t: Id, token: Token)
    | Subscribe(t: Id, token: Token, endpoint: Endpoint)
    | Unsubscribe(t: Id, token: Token, endpoint: Endpoint)
    | Deliver(t: Id)
    | Expire(token: Token)
    | Prune(endpoint: Endpoint)
    | Advance(t: Id, ok: bool, token: Token, endpoint: Endpoint, evicted: set<Token>)

  // ---- Steps ------------------------------------------------------------------------------------------------

  function To(w: World, t: Id, pc: Pc): World {
    w.(tasks := w.tasks[t := pc])
  }

  /** A handler that holds the push barrier returns, leaving these subscriptions. */
  function Leave(w: World, t: Id, subs: map<Endpoint, nat>): World {
    To(w, t, Idle).(barrier := None, subs := subs)
  }

  /** Login: snapshot, verify against the current hash, recheck, and mint under the table's lock if the generation
      still stands.  Minting also drops expired sessions and, at capacity, the oldest: any set of tokens. */
  function LoginStep(w: World, t: Id, ok: bool, token: Token, evicted: set<Token>): World
    requires t in w.tasks && LoggingIn(w.tasks[t])
  {
    var pc := w.tasks[t];
    var v := To(w, t, NextLogin(w, pc, ok));
    if pc.Rechecked? && w.generation == pc.generation
    then v.(tokens := (w.tokens - evicted)[token := Mint(pc.generation, pc.hash)])
    else v
  }

  predicate LoggingIn(pc: Pc) {
    pc.Snapshot? || pc.Verified? || pc.Rechecked?
  }

  function NextLogin(w: World, pc: Pc, ok: bool): Pc
    requires LoggingIn(pc)
  {
    match pc
    case Snapshot(g) => if ok then Verified(g, w.hash) else Idle
    case Verified(g, h) => if w.generation == g then Rechecked(g, h) else Idle
    case Rechecked(_, _) => Idle
  }

  predicate Rotating(pc: Pc) {
    pc.Admitted? || pc.Authorized? || pc.Barred? || Mutating(pc) || pc.Revoked?
  }

  /** Between the store commit and the revocation. */
  predicate Mutating(pc: Pc) {
    pc.Committed? || pc.Swapped? || pc.EpochMoved? || pc.Cancelled?
  }

  /** Rotation: recheck the session, verify the current password, take the barrier, commit hash and wipe in one
      transaction, swap the hash, bump the epoch, cancel the deliveries, then revoke every session. */
  function RotationStep(w: World, t: Id, ok: bool): World
    requires t in w.tasks && Rotating(w.tasks[t])
  {
    match w.tasks[t]
    case Admitted(token) =>
      if token in w.tokens && ok then To(w, t, Authorized) else To(w, t, Idle).(passwordMu := None)
    case Authorized => To(w, t, Barred).(barrier := Some(t))
    case Barred =>
      if ok then To(w, t, Committed(w.removals + 1))
                 .(subs := map[], removals := w.removals + 1, rotations := w.rotations + [w.removals + 1])
      else Leave(w, t, w.subs).(passwordMu := None)
    case Committed(r) => To(w, t, Swapped(r)).(hash := w.hash + 1)
    case Swapped(r) => To(w, t, EpochMoved(r)).(epoch := w.epoch + 1, moved := w.moved + {r})
    case EpochMoved(r) =>
      To(w, t, Cancelled(r)).(cancelled := w.cancelled + {w.context}, context := w.context + 1,
                              settled := w.settled + {r})
    case Cancelled(r) => To(w, t, Revoked).(generation := w.generation + 1, tokens := map[])
    case Revoked => Leave(w, t, w.subs).(passwordMu := None, finished := w.finished + 1)
  }

  predicate LoggingOut(pc: Pc) {
    pc.Leaving? || pc.Left? || pc.Removing? || pc.Removed? || pc.RemovedMoved?
  }

  /** Logout: revoke the session first, then remove the device's subscription if the session was live, and bump the
      epoch only if the removal succeeded. */
  function LogoutStep(w: World, t: Id, ok: bool, endpoint: Endpoint): World
    requires t in w.tasks && LoggingOut(w.tasks[t])
  {
    match w.tasks[t]
    case Leaving(token) =>
      To(w, t, if token in w.tokens && endpoint != "" then Removing(endpoint) else Left).(tokens := w.tokens - {token})
    case Left => Leave(w, t, w.subs)
    case Removing(e) =>
      if ok then To(w, t, Removed(w.removals + 1)).(subs := w.subs - {e}, removals := w.removals + 1)
      else To(w, t, Left)
    case Removed(r) => To(w, t, RemovedMoved(r)).(epoch := w.epoch + 1, moved := w.moved + {r})
    case RemovedMoved(r) =>
      To(w, t, Left).(cancelled := w.cancelled + {w.context}, context := w.context + 1, settled := w.settled + {r})
  }

  predicate Registering(pc: Pc) {
    pc.Subscribing? || pc.Storing? || pc.Unsubscribing? || pc.Erasing?
  }

  /** Subscribe and unsubscribe: recheck the session under the barrier, then change the store. */
  function RegistrationStep(w: World, t: Id, ok: bool): World
    requires t in w.tasks && Registering(w.tasks[t])
  {
    match w.tasks[t]
    case Subscribing(token, e) =>
      if token in w.tokens then To(w, t, Storing(e, w.tokens[token].generation)) else Leave(w, t, w.subs)
    case Storing(e, g) => Leave(w, t, if ok then w.subs[e := g] else w.subs)
    case Unsubscribing(token, e) => if token in w.tokens then To(w, t, Erasing(e)) else Leave(w, t, w.subs)
    case Erasing(e) => Leave(w, t, if ok then w.subs - {e} else w.subs)
  }

  predicate Delivering(pc: Pc) {
    pc.Loaded? || pc.Read? || pc.Scoped? || pc.Cleared? || pc.Sending?
  }

  /** deliverPush: epoch, subscriptions, context, then before each send a check of both; other gates may take any time
      between the check and the send. */
  function NextDelivery(w: World, pc: Pc, ok: bool): Pc
    requires Delivering(pc)
  {
    match pc
    case Loaded(e) => if ok then Read(e, Slice(w.subs, w.removals, |w.rotations|)) else Idle
    case Read(e, s) => Scoped(e, s, w.context)
    case Scoped(e, s, c) => if w.epoch != e || c in w.cancelled then Idle else Cleared(e, s, c)
    case Cleared(e, s, c) => if ok then Sending(e, s, c) else Idle
    case Sending(e, s, c) => if ok then Scoped(e, s, c) else Idle
  }

  function DeliveryStep(w: World, t: Id, ok: bool): World
    requires t in w.tasks && Delivering(w.tasks[t])
  {
    To(w, t, NextDelivery(w, w.tasks[t], ok))
  }

  predicate Enabled(w: World, a: Action) {
    match a
    case Expire(_) => true
    case Prune(_) => true
    case Login(t) => t in w.tasks && w.tasks[t].Idle?
    case Deliver(t) => t in w.tasks && w.tasks[t].Idle?
    case ChangePassword(t, _) => t in w.tasks && w.tasks[t].Idle? && w.passwordMu.None?
    case Logout(t, _) => t in w.tasks && w.tasks[t].Idle? && w.barrier.None?
    case Subscribe(t, _, _) => t in w.tasks && w.tasks[t].Idle? && w.barrier.None?
    case Unsubscribe(t, _, _) => t in w.tasks && w.tasks[t].Idle? && w.barrier.None?
    case Advance(t, _, _, _, _) =>
      t in w.tasks && !w.tasks[t].Idle? && (w.tasks[t].Authorized? ==> w.barrier.None?)
  }

  function Step(w: World, a: Action): World
    requires Enabled(w, a)
  {
    match a
    case Expire(token) => w.(tokens := w.tokens - {token})
    case Prune(e) => w.(subs := w.subs - {e})
    case Login(t) => To(w, t, Snapshot(w.generation))
    case Deliver(t) => To(w, t, Loaded(w.epoch))
    case ChangePassword(t, token) => To(w, t, Admitted(token)).(passwordMu := Some(t))
    case Logout(t, token) => To(w, t, Leaving(token)).(barrier := Some(t))
    case Subscribe(t, token, e) => To(w, t, Subscribing(token, e)).(barrier := Some(t))
    case Unsubscribe(t, token, e) => To(w, t, Unsubscribing(token, e)).(barrier := Some(t))
    case Advance(t, ok, token, e, evicted) =>
      if Rotating(w.tasks[t]) then RotationStep(w, t, ok)
      else if LoggingOut(w.tasks[t]) then LogoutStep(w, t, ok, e)
      else if Registering(w.tasks[t]) then RegistrationStep(w, t, ok)
      else if Delivering(w.tasks[t]) then DeliveryStep(w, t, ok)
      else LoginStep(w, t, ok, token, evicted)
  }

  predicate ValidRun(w: World, run: seq<Action>)
    decreases |run|
  {
    run == [] || (Enabled(w, run[0]) && ValidRun(Step(w, run[0]), run[1..]))
  }

  function Exec(w: World, run: seq<Action>): World
    requires ValidRun(w, run)
    decreases |run|
  {
    if run == [] then w else Exec(Step(w, run[0]), run[1..])
  }

  /** At start: the configured hash, no session, the stored subscriptions, any number of idle tasks. */
  predicate Initial(w: World) {
    && w.hash == 0 && w.generation == 0 && w.tokens == map[] && w.passwordMu.None? && w.barrier.None?
    && w.context !in w.cancelled && (forall c :: c in w.cancelled ==> c < w.context)
    && w.removals == 0 && w.rotations == [] && w.moved == {} && w.settled == {} && w.finished == 0
    && forall t :: t in w.tasks ==> w.tasks[t].Idle?
  }

  // ---- What every step keeps ---------------------------------------------------------------------------------

  predicate HoldsBarrier(pc: Pc) {
    pc.Barred? || Mutating(pc) || pc.Revoked? || LoggingOut(pc) || Registering(pc)
  }

  /** A worker that loaded epoch e before reading slice s has missed every removal counted after s. */
  predicate SliceOk(w: World, e: nat, s: Slice) {
    && e <= w.epoch && s.removals <= w.removals
    && (forall r :: r in w.moved && r > s.removals ==> e < w.epoch)
    && (forall x :: x in s.subs ==> s.subs[x] >= s.wipes)
    && (forall j :: 0 <= j < |w.rotations| && w.rotations[j] <= s.removals ==> j < s.wipes)
  }

  predicate ContextOk(w: World, c: nat) {
    c <= w.context && (c < w.context ==> c in w.cancelled)
  }

  predicate SendOk(w: World, e: nat, s: Slice, c: nat) {
    SliceOk(w, e, s) && ContextOk(w, c) && forall r :: r in w.settled && r > s.removals ==> c < w.context
  }

  /** What a task's code position means for the shared state. */
  predicate TaskOk(w: World, t: Id, pc: Pc) {
    && (Rotating(pc) ==> w.passwordMu == Some(t))
    && (HoldsBarrier(pc) ==> w.barrier == Some(t))
    && match pc
       case Snapshot(g) => g <= w.generation
       case Verified(g, h) => g <= h
       case Rechecked(g, h) => g <= h
       case Committed(r) => r <= w.removals
       case Swapped(r) => r <= w.removals
       case EpochMoved(r) => r in w.moved
       case Removed(r) => r <= w.removals
       case RemovedMoved(r) => r in w.moved
       case Storing(_, g) => g >= |w.rotations|
       case Loaded(e) => e <= w.epoch
       case Read(e, s) => SliceOk(w, e, s)
       case Scoped(e, s, c) => SliceOk(w, e, s) && ContextOk(w, c)
       case Cleared(e, s, c) => SendOk(w, e, s, c)
       case Sending(e, s, c) => SendOk(w, e, s, c)
       case _ => true
  }

  /** Where the rotation in progress is, if there is one. */
  function Progress(w: World): Pc {
    if w.passwordMu.Some? && w.passwordMu.value in w.tasks then w.tasks[w.passwordMu.value] else Idle
  }

  /** How far the stored wipe, the hash, the generation and the finished count are apart at each point. */
  predicate InPhase(w: World) {
    match Progress(w)
    case Committed(r) => |w.rotations| == w.hash + 1 && w.hash == w.generation == w.finished
    case Swapped(r) => |w.rotations| == w.hash == w.generation + 1 && w.generation == w.finished
    case EpochMoved(r) => |w.rotations| == w.hash == w.generation + 1 && w.generation == w.finished
    case Cancelled(r) => |w.rotations| == w.hash == w.generation + 1 && w.generation == w.finished
    case Revoked => |w.rotations| == w.hash == w.generation == w.finished + 1
    case _ => |w.rotations| == w.hash == w.generation == w.finished
  }

  /** Every rotation's removal is settled, except the last one while its rotation is still about to cancel. */
  predicate RotationsSettled(w: World) {
    && (forall j :: 0 <= j < |w.rotations| ==> w.rotations[j] <= w.removals)
    && (forall j :: 0 <= j < |w.rotations| && w.rotations[j] !in w.settled ==>
          j == |w.rotations| - 1 && match Progress(w)
                                    case Committed(r) => r == w.rotations[j]
                                    case Swapped(r) => r == w.rotations[j]
                                    case EpochMoved(r) => r == w.rotations[j] && r in w.moved
                                    case _ => false)
  }

  predicate GlobalsOk(w: World) {
    && (forall k :: k in w.tokens ==> w.tokens[k].generation == w.generation <= w.tokens[k].verified)
    && (forall e :: e in w.subs ==> w.subs[e] >= |w.rotations|)
    && w.settled <= w.moved && (forall r :: r in w.moved ==> r <= w.removals)
  }

  predicate TasksOk(w: World) {
    forall t :: t in w.tasks ==> TaskOk(w, t, w.tasks[t])
  }

  predicate Inv(w: World) {
    TasksOk(w) && InPhase(w) && RotationsSettled(w) && GlobalsOk(w)
  }

  /** How task t may change the shared state under the feet of the others. */
  predicate Respects(w: World, v: World, t: Id) {
    && t in w.tasks && t in v.tasks && v.tasks == w.tasks[t := v.tasks[t]]
    && (w.passwordMu != v.passwordMu ==> w.passwordMu.None? || w.passwordMu == Some(t))
    && (w.barrier != v.barrier ==> w.barrier.None? || w.barrier == Some(t))
    && w.generation <= v.generation && w.epoch <= v.epoch && w.removals <= v.removals
    && (w.rotations == v.rotations
        || (w.barrier == Some(t) && v.rotations == w.rotations + [v.removals] && w.removals < v.removals))
    && w.context <= v.context <= w.context + 1 && w.cancelled <= v.cancelled
    && (w.context < v.context ==> w.context in v.cancelled)
    && w.moved <= v.moved && (w.epoch == v.epoch ==> v.moved == w.moved)
    && (w.context == v.context ==> v.settled == w.settled)
  }

  lemma OtherTaskOk(w: World, v: World, t: Id, u: Id, pc: Pc)
    requires Respects(w, v, t) && u != t && TaskOk(w, u, pc)
    ensures TaskOk(v, u, pc)
  {
  }

  lemma TasksKept(w: World, v: World, t: Id)
    requires TasksOk(w) && Respects(w, v, t) && TaskOk(v, t, v.tasks[t])
    ensures TasksOk(v)
  {
    forall u | u in v.tasks ensures TaskOk(v, u, v.tasks[u]) {
      if u != t { OtherTaskOk(w, v, t, u, w.tasks[u]); }
    }
  }

  lemma RotationRespects(w: World, t: Id, ok: bool)
    requires TasksOk(w) && t in w.tasks && Rotating(w.tasks[t]) && (w.tasks[t].Authorized? ==> w.barrier.None?)
    ensures Respects(w, RotationStep(w, t, ok), t)
  {
    assert TaskOk(w, t, w.tasks[t]);
  }

  lemma RotationTasks(w: World, t: Id, ok: bool)
    requires TasksOk(w) && t in w.tasks && Rotating(w.tasks[t]) && (w.tasks[t].Authorized? ==> w.barrier.None?)
    ensures TasksOk(RotationStep(w, t, ok))
  {
    assert TaskOk(w, t, w.tasks[t]);
    RotationRespects(w, t, ok);
    TasksKept(w, RotationStep(w, t, ok), t);
  }

  lemma RotationPhase(w: World, t: Id, ok: bool)
    requires Inv(w) && t in w.tasks && Rotating(w.tasks[t])
    ensures InPhase(RotationStep(w, t, ok))
  {
    assert TaskOk(w, t, w.tasks[t]);
    assert Progress(w) == w.tasks[t];
  }

  lemma RotationSettles(w: World, t: Id, ok: bool)
    requires Inv(w) && t in w.tasks && Rotating(w.tasks[t])
    ensures RotationsSettled(RotationStep(w, t, ok))
  {
    assert TaskOk(w, t, w.tasks[t]);
    assert Progress(w) == w.tasks[t];
  }

  lemma RotationGlobals(w: World, t: Id, ok: bool)
    requires Inv(w) && t in w.tasks && Rotating(w.tasks[t])
    ensures GlobalsOk(RotationStep(w, t, ok))
  {
    assert TaskOk(w, t, w.tasks[t]);
    assert Progress(w) == w.tasks[t];
  }

  /** A step outside rotation moves none of the counters that a rotation moves. */
  predicate Quiet(w: World, v: World, t: Id) {
    && t in w.tasks && t in v.tasks && v.tasks == w.tasks[t := v.tasks[t]] && v.passwordMu == w.passwordMu
    && !Rotating(w.tasks[t]) && !Rotating(v.tasks[t])
    && v.hash == w.hash && v.generation == w.generation && v.finished == w.finished && v.rotations == w.rotations
    && w.removals <= v.removals && w.settled <= v.settled && w.moved <= v.moved
  }

  lemma QuietPhase(w: World, v: World, t: Id)
    requires InPhase(w) && RotationsSettled(w) && Quiet(w, v, t)
    ensures InPhase(v) && RotationsSettled(v)
  {
    assert Progress(v) == Progress(w) || (!Rotating(Progress(v)) && !Rotating(Progress(w)));
  }

  /** What is left to show for one step of a handler other than rotation. */
  lemma QuietStep(w: World, v: World, t: Id)
    requires Inv(w) && Respects(w, v, t) && Quiet(w, v, t) && TaskOk(v, t, v.tasks[t]) && GlobalsOk(v)
    ensures Inv(v)
  {
    TasksKept(w, v, t);
    QuietPhase(w, v, t);
  }

  lemma LogoutEffect(w: World, v: World, t: Id, ok: bool, e: Endpoint)
    requires t in w.tasks && LoggingOut(w.tasks[t]) && TaskOk(w, t, w.tasks[t]) && GlobalsOk(w)
    requires v == LogoutStep(w, t, ok, e)
    ensures Respects(w, v, t) && Quiet(w, v, t)
  {
  }

  lemma LogoutTask(w: World, v: World, t: Id, ok: bool, e: Endpoint)
    requires t in w.tasks && LoggingOut(w.tasks[t]) && TaskOk(w, t, w.tasks[t])
    requires v == LogoutStep(w, t, ok, e)
    ensures TaskOk(v, t, v.tasks[t])
  {
  }

  lemma LogoutGlobals(w: World, v: World, t: Id, ok: bool, e: Endpoint)
    requires t in w.tasks && LoggingOut(w.tasks[t]) && TaskOk(w, t, w.tasks[t]) && GlobalsOk(w)
    requires v == LogoutStep(w, t, ok, e)
    ensures GlobalsOk(v)
  {
  }

  /** Nobody is past the barrier in a rotation while task t holds it elsewhere. */
  lemma NotMutating(w: World, t: Id)
    requires TasksOk(w) && InPhase(w) && t in w.tasks && Registering(w.tasks[t])
    ensures |w.rotations| == w.generation
  {
    assert TaskOk(w, t, w.tasks[t]);
    if w.passwordMu.Some? && w.passwordMu.value in w.tasks {
      assert TaskOk(w, w.passwordMu.value, Progress(w));
    }
  }

  /** Only the shared state matters for whether a code position is sound. */
  lemma TaskMoved(w: World, t: Id, pc: Pc)
    requires TaskOk(w, t, pc) && GlobalsOk(w)
    ensures TaskOk(To(w, t, pc), t, pc) && GlobalsOk(To(w, t, pc))
  {
  }

  lemma SliceReadOk(w: World, e: nat)
    requires e <= w.epoch && GlobalsOk(w)
    ensures SliceOk(w, e, Slice(w.subs, w.removals, |w.rotations|))
  {
  }

  lemma ClearedOk(w: World, e: nat, s: Slice, c: nat)
    requires SliceOk(w, e, s) && ContextOk(w, c) && w.epoch == e && GlobalsOk(w)
    ensures SendOk(w, e, s, c)
  {
  }

  lemma DeliveryOk(w: World, t: Id, pc: Pc, ok: bool)
    requires Delivering(pc) && TaskOk(w, t, pc) && GlobalsOk(w)
    ensures TaskOk(w, t, NextDelivery(w, pc, ok)) && !Rotating(NextDelivery(w, pc, ok))
  {
    if pc.Loaded? {
      SliceReadOk(w, pc.epoch);
    } else if pc.Scoped? && w.epoch == pc.epoch {
      ClearedOk(w, pc.epoch, pc.slice, pc.context);
    }
  }

  /** A step that changes nothing but a task's own position. */
  lemma MoveKeeps(w: World, t: Id, pc: Pc)
    requires Inv(w) && t in w.tasks && TaskOk(w, t, pc) && !Rotating(w.tasks[t]) && !Rotating(pc)
    ensures Inv(To(w, t, pc))
  {
    TaskMoved(w, t, pc);
    QuietStep(w, To(w, t, pc), t);
  }

  lemma DeliveryKeeps(w: World, t: Id, ok: bool)
    requires Inv(w) && t in w.tasks && Delivering(w.tasks[t])
    ensures Inv(DeliveryStep(w, t, ok))
  {
    DeliveryOk(w, t, w.tasks[t], ok);
    MoveKeeps(w, t, NextDelivery(w, w.tasks[t], ok));
  }

  lemma LeaveKeeps(w: World, t: Id, subs: map<Endpoint, nat>)
    requires Inv(w) && t in w.tasks && !Rotating(w.tasks[t]) && HoldsBarrier(w.tasks[t])
    requires forall e :: e in subs ==> subs[e] >= |w.rotations|
    ensures Inv(Leave(w, t, subs))
  {
    assert TaskOk(w, t, w.tasks[t]);
    QuietStep(w, Leave(w, t, subs), t);
  }

  lemma RegistrationKeeps(w: World, t: Id, ok: bool)
    requires Inv(w) && t in w.tasks && Registering(w.tasks[t])
    ensures Inv(RegistrationStep(w, t, ok))
  {
    assert TaskOk(w, t, w.tasks[t]);
    NotMutating(w, t);
    match w.tasks[t] {
      case Subscribing(token, e) =>
        if token in w.tokens { MoveKeeps(w, t, Storing(e, w.tokens[token].generation)); } else { LeaveKeeps(w, t, w.subs); }
      case Storing(e, g) => LeaveKeeps(w, t, if ok then w.subs[e := g] else w.subs);
      case Unsubscribing(token, e) =>
        if token in w.tokens { MoveKeeps(w, t, Erasing(e)); } else { LeaveKeeps(w, t, w.subs); }
      case Erasing(e) => LeaveKeeps(w, t, if ok then w.subs - {e} else w.subs);
    }
  }

  lemma LoginOk(w: World, t: Id, pc: Pc, ok: bool)
    requires LoggingIn(pc) && TaskOk(w, t, pc) && w.hash >= w.generation
    ensures TaskOk(w, t, NextLogin(w, pc, ok)) && !Rotating(NextLogin(w, pc, ok))
  {
  }

  lemma TokensKeep(w: World, tokens: map<Token, Mint>)
    requires Inv(w) && forall k :: k in tokens ==> tokens[k].generation == w.generation <= tokens[k].verified
    ensures Inv(w.(tokens := tokens))
  {
    var v := w.(tokens := tokens);
    forall t | t in v.tasks ensures TaskOk(v, t, v.tasks[t]) {
      assert TaskOk(w, t, w.tasks[t]);
    }
  }

  lemma LoginKeeps(w: World, t: Id, ok: bool, token: Token, evicted: set<Token>)
    requires Inv(w) && t in w.tasks && LoggingIn(w.tasks[t])
    ensures Inv(LoginStep(w, t, ok, token, evicted))
  {
    var pc := w.tasks[t];
    assert TaskOk(w, t, pc) && w.hash >= w.generation;
    LoginOk(w, t, pc, ok);
    MoveKeeps(w, t, NextLogin(w, pc, ok));
    if pc.Rechecked? && w.generation == pc.generation {
      TokensKeep(To(w, t, NextLogin(w, pc, ok)), (w.tokens - evicted)[token := Mint(pc.generation, pc.hash)]);
    }
  }

  lemma LogoutKeeps(w: World, t: Id, ok: bool, e: Endpoint)
    requires Inv(w) && t in w.tasks && LoggingOut(w.tasks[t])
    ensures Inv(LogoutStep(w, t, ok, e))
  {
    var v := LogoutStep(w, t, ok, e);
    LogoutEffect(w, v, t, ok, e);
    LogoutTask(w, v, t, ok, e);
    LogoutGlobals(w, v, t, ok, e);
    QuietStep(w, v, t);
  }

  lemma RotationKeeps(w: World, t: Id, ok: bool)
    requires Inv(w) && t in w.tasks && Rotating(w.tasks[t]) && (w.tasks[t].Authorized? ==> w.barrier.None?)
    ensures Inv(RotationStep(w, t, ok))
  {
    RotationTasks(w, t, ok);
    RotationPhase(w, t, ok);
    RotationSettles(w, t, ok);
    RotationGlobals(w, t, ok);
  }

  /** Starting a handler that takes the push barrier. */
  lemma BarrierKeeps(w: World, t: Id, pc: Pc)
    requires Inv(w) && t in w.tasks && w.tasks[t].Idle? && w.barrier.None?
    requires pc.Leaving? || pc.Subscribing? || pc.Unsubscribing?
    ensures Inv(To(w, t, pc).(barrier := Some(t)))
  {
    QuietStep(w, To(w, t, pc).(barrier := Some(t)), t);
  }

  lemma ChangePasswordKeeps(w: World, t: Id, token: Token)
    requires Inv(w) && Enabled(w, ChangePassword(t, token))
    ensures Inv(Step(w, ChangePassword(t, token)))
  {
    var v := Step(w, ChangePassword(t, token));
    TasksKept(w, v, t);
  }

  lemma SubsKeep(w: World, subs: map<Endpoint, nat>)
    requires Inv(w) && forall e :: e in subs ==> subs[e] >= |w.rotations|
    ensures Inv(w.(subs := subs))
  {
    var v := w.(subs := subs);
    forall t | t in v.tasks ensures TaskOk(v, t, v.tasks[t]) {
      assert TaskOk(w, t, w.tasks[t]);
    }
  }

  lemma AdvanceKeeps(w: World, a: Action)
    requires Inv(w) && Enabled(w, a) && a.Advance?
    ensures Inv(Step(w, a))
  {
    var pc := w.tasks[a.t];
    if Rotating(pc) {
      RotationKeeps(w, a.t, a.ok);
    } else if LoggingOut(pc) {
      LogoutKeeps(w, a.t, a.ok, a.endpoint);
    } else if Registering(pc) {
      RegistrationKeeps(w, a.t, a.ok);
    } else if Delivering(pc) {
      DeliveryKeeps(w, a.t, a.ok);
    } else {
      LoginKeeps(w, a.t, a.ok, a.token, a.evicted);
    }
  }

  lemma StepKeeps(w: World, a: Action)
    requires Inv(w) && Enabled(w, a)
    ensures Inv(Step(w, a))
  {
    match a {
      case Expire(k) => TokensKeep(w, w.tokens - {k});
      case Prune(e) => SubsKeep(w, w.subs - {e});
      case Login(t) => MoveKeeps(w, t, Snapshot(w.generation));
      case Deliver(t) => MoveKeeps(w, t, Loaded(w.epoch));
      case ChangePassword(t, k) => ChangePasswordKeeps(w, t, k);
      case Logout(t, k) => BarrierKeeps(w, t, Leaving(k));
      case Subscribe(t, k, e) => BarrierKeeps(w, t, Subscribing(k, e));
      case Unsubscribe(t, k, e) => BarrierKeeps(w, t, Unsubscribing(k, e));
      case Advance(_, _, _, _, _) => AdvanceKeeps(w, a);
    }
  }

  // ---- Whole runs ---------------------------------------------------------------------------------------------

  lemma {:induction false} RunKeeps(w: World, run: seq<Action>)
    requires Inv(w) && ValidRun(w, run)
    ensures Inv(Exec(w, run))
    decreases |run|
  {
    if run != [] {
      StepKeeps(w, run[0]);
      RunKeeps(Step(w, run[0]), run[1..]);
    }
  }

  lemma FromStart(w: World, run: seq<Action>)
    requires Initial(w) && ValidRun(w, run)
    ensures Inv(Exec(w, run))
  {
    RunKeeps(w, run);
  }

  /** Over every interleaving, each live session was verified against a hash at least as new as the current credential
      generation. */
  lemma LiveSessionsAreCurrent(w: World, run: seq<Action>, token: Token)
    requires Initial(w) && ValidRun(w, run) && token in Exec(w, run).tokens
    ensures Exec(w, run).tokens[token].verified >= Exec(w, run).generation
  {
    FromStart(w, run);
  }

  /** Over every interleaving, each stored subscription was stored by a session minted no earlier than the last finished
      rotation. */
  lemma SubscriptionsPostdateRotation(w: World, run: seq<Action>, endpoint: Endpoint)
    requires Initial(w) && ValidRun(w, run) && endpoint in Exec(w, run).subs
    ensures Exec(w, run).subs[endpoint] >= Exec(w, run).finished
  {
    FromStart(w, run);
  }

  /** Once the bump that follows a removal has returned, a send from a slice read before that removal, running or yet to
      start, carries a cancelled context. */
  lemma StaleSendsAreCancelled(w: World, run: seq<Action>, t: Id, removal: nat)
    requires Initial(w) && ValidRun(w, run) && t in Exec(w, run).tasks
    requires Exec(w, run).tasks[t].Cleared? || Exec(w, run).tasks[t].Sending?
    requires removal in Exec(w, run).settled && Exec(w, run).tasks[t].slice.removals < removal
    ensures Exec(w, run).tasks[t].context in Exec(w, run).cancelled
  {
    FromStart(w, run);
    assert TaskOk(Exec(w, run), t, Exec(w, run).tasks[t]);
  }

  /** Hence after a rotation finishes, a send whose context is not cancelled goes only to endpoints stored by sessions
      minted since. */
  lemma LiveSendsPostdateRotation(w: World, run: seq<Action>, t: Id, endpoint: Endpoint)
    requires Initial(w) && ValidRun(w, run) && t in Exec(w, run).tasks && Exec(w, run).tasks[t].Sending?
    requires Exec(w, run).tasks[t].context !in Exec(w, run).cancelled
    requires endpoint in Exec(w, run).tasks[t].slice.subs
    ensures Exec(w, run).tasks[t].slice.subs[endpoint] >= Exec(w, run).finished
  {
    FromStart(w, run);
    var v := Exec(w, run);
    var s := v.tasks[t].slice;
    assert TaskOk(v, t, v.tasks[t]);
    if v.finished > 0 {
      var r := v.rotations[v.finished - 1];
      assert r in v.settled;
    }
  }
}
