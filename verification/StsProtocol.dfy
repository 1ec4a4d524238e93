/** Any number of managers share one hostname record.  Each manager runs the connect loop of `Run`:
    load, dial, apply advertised policies while the connection is secure, reschedule on close.  Every lock
    section and every store call is a separate atomic step, so runs interleave freely; any read or write
    may fail, and a failed write leaves the record unchanged.

    `guard` records, per manager, the expiry of the last nonzero duration it applied over TLS.  It is
    dropped only when that manager applies duration 0 or reloads a record whose policy epoch changed. */
module StsProtocol {
  import opened Wrappers
  import opened StsPolicy

  datatype Guard = NoGuard | Guard(until: int)

  datatype Pc =
    | Idle                                   // about to load
    | Read(snap: Record)                     // store read returned, not yet merged
    | Ready                                  // policy settled, about to dial
    | Connected(secure: bool)
    | Applying(base: Local, port: int, d: nat, until: int)
    | Applied(base: Local, port: int, d: nat, until: int, written: Option<Counters>)
    | Closing(base: Local, expected: nat, until: int)
    | Closed(base: Local, outcome: Outcome)

  datatype Manager = Manager(tls: bool, persistent: bool, local: Local, pc: Pc, guard: Guard)

  /** `floor` is the expiry given by the last committed Set: the least expiry its policy epoch may have. */
  datatype World = World(now: int, rec: Record, floor: int, managers: map<int, Manager>)

  datatype Action =
    | Tick(elapsed: nat)
    | Start(id: int, tls: bool, persistent: bool)
    | Stop(id: int)
    | LoadRead(id: int)
    | LoadFailed(id: int)
    | LoadMerge(id: int)
    | Dial(id: int, connects: bool)
    | ApplyLocal(id: int, port: int, d: nat)
    | ApplyStore(id: int, commits: bool)
    | ApplyDone(id: int)
    | Upgraded(id: int, port: int)
    | Close(id: int)
    | CloseStore(id: int, commits: bool)
    | CloseDone(id: int)

  predicate Enabled(w: World, a: Action) {
    match a
    case Tick(_) => true
    case Start(id, _, _) => id !in w.managers
    case _ => a.id in w.managers && ManagerEnabled(w.managers[a.id], a)
  }

  predicate ManagerEnabled(m: Manager, a: Action) {
    match a
    case LoadRead(_) => m.pc.Idle? && m.persistent
    case LoadFailed(_) => m.pc.Idle?
    case LoadMerge(_) => m.pc.Read?
    case Dial(_, _) => m.pc.Ready?
    case ApplyLocal(_, _, _) => m.pc == Connected(true)
    case ApplyStore(_, _) => m.pc.Applying?
    case ApplyDone(_) => m.pc.Applied?
    case Upgraded(_, port) => m.pc == Connected(false) && ValidPort(port)
    case Close(_) => m.pc.Connected?
    case CloseStore(_, _) => m.pc.Closing?
    case CloseDone(_) => m.pc.Closed?
    case _ => true
  }

  function Put(w: World, id: int, m: Manager): World {
    w.(managers := w.managers[id := m])
  }

  /** What a local step does to the acting manager. */
  function Local1(m: Manager, a: Action, now: int): Manager
    requires ManagerEnabled(m, a)
  {
    match a
    case LoadFailed(_) =>
      // Without a store there is nothing to load; a TLS configuration dials regardless; a plaintext one waits.
      if m.tls || !m.persistent then m.(pc := Ready) else m
    case LoadMerge(_) =>
      var changed := m.local.counters.Some? && m.local.counters.value.epoch != m.pc.snap.epoch;
      m.(local := Load(m.local, m.pc.snap, now), pc := Ready, guard := if changed then NoGuard else m.guard)
    case Dial(_, connects) =>
      m.(pc := if connects then Connected(DialsSecure(m.local, m.tls, now)) else Idle)
    case ApplyLocal(_, port, d) =>
      m.(local := BeginApply(m.local, port, d, now),
         pc := if m.persistent then Applying(m.local, port, d, now + d) else Connected(true),
         guard := if d > 0 && port > 0 then Guard(now + d) else NoGuard)
    case ApplyDone(_) =>
      m.(local := FinishApply(m.local, m.pc.base, m.pc.d, m.pc.written), pc := Connected(true))
    case Upgraded(_, port) => m.(local := AdoptUpgrade(m.local, port), pc := Idle)
    case Close(_) =>
      if !m.pc.secure then m.(pc := Idle)
      else
        var call := RescheduleCall(m.local, now);
        m.(local := BeginReschedule(m.local, now),
           pc := if m.persistent && call.Some? then Closing(m.local, call.value.0, call.value.1) else Idle)
    case CloseDone(_) =>
      m.(local := FinishReschedule(m.local, m.pc.base, m.pc.outcome), pc := Idle)
    case _ => m
  }

  function Step(w: World, a: Action): World
    requires Enabled(w, a)
  {
    match a
    case Tick(elapsed) => w.(now := w.now + elapsed)
    case Start(id, tls, persistent) => Put(w, id, Manager(tls, persistent, FRESH, Idle, NoGuard))
    case Stop(id) => w.(managers := w.managers - {id})
    case LoadRead(id) => Put(w, id, w.managers[id].(pc := Read(w.rec)))
    case ApplyStore(id, commits) =>
      var m := w.managers[id];
      var w' := if commits then CommitApply(w, m.pc) else w;
      // SetSTSPolicy rejects an invalid port, so no such policy is ever committed.
      var written := if w'.rec != w.rec then Seen(w'.rec) else None;
      Put(w', id, m.(pc := Applied(m.pc.base, m.pc.port, m.pc.d, m.pc.until, written)))
    case CloseStore(id, commits) =>
      var m := w.managers[id];
      if !commits then Put(w, id, m.(pc := Closed(m.pc.base, WriteFailed)))
      else if !CanReschedule(w.rec, m.pc.expected) then Put(w, id, m.(pc := Closed(m.pc.base, Refused)))
      else
        var rec := StoreReschedule(w.rec, m.pc.until);
        Put(w.(rec := rec), id, m.(pc := Closed(m.pc.base, Outcome.Rescheduled(rec.revision))))
    case _ => Put(w, a.id, Local1(w.managers[a.id], a, w.now))
  }

  function CommitApply(w: World, pc: Pc): World
    requires pc.Applying?
  {
    if pc.d == 0 then w.(rec := StoreClear(w.rec))
    else if ValidPort(pc.port) then w.(rec := StoreSet(w.rec, pc.port, pc.until, pc.d), floor := pc.until)
    else w
  }

  /** No manager yet, and a record left by an earlier process: any one whose expiry is no further off than its own
      duration.  `floor` may be that expiry, so an active stored policy is covered from the start. */
  predicate Initial(w: World) {
    && w.managers == map[] && ValidRecord(w.rec)
    && (w.rec.present ==> w.floor <= w.rec.until)
    && (w.rec.present && w.rec.duration > 0 ==> w.floor <= w.now + w.rec.duration)
  }

  ghost predicate ValidRun(w: World, run: seq<Action>)
    decreases |run|
  {
    run == [] || (Enabled(w, run[0]) && ValidRun(Step(w, run[0]), run[1..]))
  }

  ghost function Exec(w: World, run: seq<Action>): World
    requires ValidRun(w, run)
    decreases |run|
  {
    if run == [] then w else Exec(Step(w, run[0]), run[1..])
  }

  // ---- The invariant ------------------------------------------------------------------------------

  /** The parts of the world that other managers depend on. */
  datatype Shared = Shared(now: int, rec: Record, floor: int)

  function SharedOf(w: World): Shared {
    Shared(w.now, w.rec, w.floor)
  }

  predicate SharedInv(s: Shared) {
    && ValidRecord(s.rec)
    && (s.rec.present ==> s.floor <= s.rec.until)
    && (s.rec.present && s.rec.duration > 0 ==> s.floor <= s.now + s.rec.duration)
  }

  predicate CountersInv(s: Shared, c: Option<Counters>) {
    c.Some? ==>
      && c.value.revision <= s.rec.revision
      && c.value.epoch <= s.rec.epoch
      && (c.value.revision == s.rec.revision ==> c.value.epoch == s.rec.epoch)
  }

  predicate FullDirty(l: Local) {
    l.dirty && l.dirtyFull
  }

  /** The manager's last counters name the policy epoch now stored. */
  predicate Current(s: Shared, c: Option<Counters>) {
    c.Some? && c.value.epoch == s.rec.epoch
  }

  predicate LocalInv(s: Shared, l: Local) {
    && CountersInv(s, l.counters)
    && (l.dirty ==> l.dirtyBase == KnownEpoch(l))
    && (l.dirty && !l.dirtyFull ==> l.counters.Some?)
    && (l.session ==> l.lastDur == 0)
  }

  /** A reschedule computed from these fields could not shorten the stored policy. */
  predicate DurationInv(s: Shared, l: Local) {
    !FullDirty(l) && Current(s, l.counters) && l.lastDur > 0 ==> s.floor <= s.now + l.lastDur
  }

  predicate SnapInv(s: Shared, snap: Record) {
    && ValidRecord(snap)
    && CountersInv(s, Seen(snap))
    && (snap.epoch == s.rec.epoch && snap.present && snap.duration > 0 ==> s.floor <= s.now + snap.duration)
    && (snap.epoch == s.rec.epoch ==> snap.present == s.rec.present)
    && (snap.epoch == s.rec.epoch && snap.present ==> s.floor <= snap.until)
  }

  predicate Unexpired(m: Manager, now: int) {
    m.guard.Guard? && now < m.guard.until
  }

  predicate Holds(l: Local, until: int) {
    l.port > 0 && l.until.At? && until <= l.until.time
  }

  predicate RecordHolds(r: Record, until: int) {
    r.present && until <= r.until
  }

  /** While the guard lasts, the policy is enforced locally, and it is either the stored policy of the
      manager's epoch or a full write that failed on top of that epoch. */
  predicate GuardInv(s: Shared, m: Manager) {
    Unexpired(m, s.now) ==>
      var u := m.guard.until;
      && m.pc != Connected(false)
      && Holds(m.local, u)
      && (m.local.lastDur > 0 ==> u <= s.now + m.local.lastDur)
      && (m.persistent && !FullDirty(m.local) && !m.pc.Applying? && !m.pc.Applied? ==>
            && m.local.counters.Some?
            && (Current(s, m.local.counters) ==> RecordHolds(s.rec, u) && u <= s.floor)
            && (m.pc.Read? && m.pc.snap.epoch == m.local.counters.value.epoch ==>
                  RecordHolds(m.pc.snap, u) && (m.pc.snap.duration > 0 ==> u <= s.now + m.pc.snap.duration)))
  }

  predicate PcInv(s: Shared, m: Manager) {
    match m.pc
    case Read(snap) => m.persistent && SnapInv(s, snap)
    case Applying(base, port, d, until) => m.persistent && ApplyInv(s, m, base, port, d, until)
    case Applied(base, port, d, until, written) =>
      && m.persistent
      && ApplyInv(s, m, base, port, d, until)
      && CountersInv(s, written)
      && (d > 0 && Current(s, written) ==> s.floor == until && RecordHolds(s.rec, until))
    case Closing(base, expected, until) =>
      && m.persistent && base.counters == m.local.counters && m.local.counters.Some?
      && m.local.counters.value.revision == expected
      && !FullDirty(m.local)
      && (expected == s.rec.revision ==> s.floor <= until)
    case Closed(base, outcome) =>
      && m.persistent && base.counters == m.local.counters && m.local.counters.Some?
      && !FullDirty(m.local)
      && (outcome.Rescheduled? ==>
            CountersInv(s, Some(Counters(outcome.revision, m.local.counters.value.epoch))))
    case _ => true
  }

  predicate ApplyInv(s: Shared, m: Manager, base: Local, port: int, d: nat, until: int) {
    && base.counters == m.local.counters
    && until <= s.now + d
    && m.guard == (if d > 0 && port > 0 then Guard(until) else NoGuard)
    && m.local.lastDur == d
    && !m.local.session
  }

  predicate ManagerInv(s: Shared, m: Manager) {
    && LocalInv(s, m.local)
    && (!m.persistent ==> m.local.counters.None?)
    && (!m.pc.Applying? && !m.pc.Applied? ==> DurationInv(s, m.local))
    && PcInv(s, m)
    && GuardInv(s, m)
  }

  ghost predicate Inv(w: World) {
    && SharedInv(SharedOf(w))
    && (forall id :: id in w.managers ==> ManagerInv(SharedOf(w), w.managers[id]))
  }

  /** How one step may change the shared part. */
  predicate SharedMoves(s: Shared, t: Shared) {
    && s.now <= t.now
    && (|| (t.rec == s.rec && t.floor == s.floor)
        || (t.rec.epoch > s.rec.epoch && t.rec.revision > s.rec.revision)
        || (s.rec.present && t.floor == s.floor && s.floor <= t.rec.until
            && t.rec == StoreReschedule(s.rec, t.rec.until)))
  }

  /** A manager that does not act keeps its invariant, whatever the others do to the record. */
  lemma BystanderKept(s: Shared, t: Shared, m: Manager)
    requires SharedMoves(s, t) && ManagerInv(s, m)
    ensures ManagerInv(t, m)
  {
  }

  lemma LoadMergeKept(s: Shared, m: Manager, a: Action)
    requires a.LoadMerge? && ManagerEnabled(m, a) && SharedInv(s) && ManagerInv(s, m)
    ensures ManagerInv(s, Local1(m, a, s.now))
  {
  }

  lemma ApplyLocalKept(s: Shared, m: Manager, a: Action)
    requires a.ApplyLocal? || a.ApplyDone?
    requires ManagerEnabled(m, a) && SharedInv(s) && ManagerInv(s, m)
    ensures ManagerInv(s, Local1(m, a, s.now))
  {
  }

  lemma CloseLocalKept(s: Shared, m: Manager, a: Action)
    requires a.Close? || a.CloseDone?
    requires ManagerEnabled(m, a) && SharedInv(s) && ManagerInv(s, m)
    ensures ManagerInv(s, Local1(m, a, s.now))
  {
  }

  lemma LocalStepKept(s: Shared, m: Manager, a: Action)
    requires ManagerEnabled(m, a) && SharedInv(s) && ManagerInv(s, m)
    ensures ManagerInv(s, Local1(m, a, s.now))
  {
    if a.LoadMerge? {
      LoadMergeKept(s, m, a);
    } else if a.ApplyLocal? || a.ApplyDone? {
      ApplyLocalKept(s, m, a);
    } else if a.Close? || a.CloseDone? {
      CloseLocalKept(s, m, a);
    }
  }

  lemma OthersKept(w: World, w': World, id: int)
    requires Inv(w) && SharedMoves(SharedOf(w), SharedOf(w')) && SharedInv(SharedOf(w'))
    requires w'.managers.Keys <= w.managers.Keys + {id}
    requires forall j :: j in w'.managers && j != id ==> j in w.managers && w'.managers[j] == w.managers[j]
    requires id in w'.managers ==> ManagerInv(SharedOf(w'), w'.managers[id])
    ensures Inv(w')
  {
    forall j | j in w'.managers && j != id
      ensures ManagerInv(SharedOf(w'), w'.managers[j])
    {
      BystanderKept(SharedOf(w), SharedOf(w'), w.managers[j]);
    }
  }

  lemma ApplyStoreKept(w: World, a: Action)
    requires a.ApplyStore? && Enabled(w, a) && Inv(w)
    ensures Inv(Step(w, a))
  {
    OthersKept(w, Step(w, a), a.id);
  }

  lemma CloseStoreKept(w: World, a: Action)
    requires a.CloseStore? && Enabled(w, a) && Inv(w)
    ensures Inv(Step(w, a))
  {
    OthersKept(w, Step(w, a), a.id);
  }

  lemma EnvironmentKept(w: World, a: Action)
    requires a.Tick? || a.Start? || a.Stop?
    requires Enabled(w, a) && Inv(w)
    ensures Inv(Step(w, a))
  {
    var id := if a.Tick? then 0 else a.id;
    if a.Tick? && id in w.managers { BystanderKept(SharedOf(w), SharedOf(Step(w, a)), w.managers[id]); }
    OthersKept(w, Step(w, a), id);
  }

  lemma LoadReadKept(w: World, a: Action)
    requires a.LoadRead? && Enabled(w, a) && Inv(w)
    ensures Inv(Step(w, a))
  {
    OthersKept(w, Step(w, a), a.id);
  }

  predicate IsLocal(a: Action) {
    !a.Tick? && !a.Start? && !a.Stop? && !a.LoadRead? && !a.ApplyStore? && !a.CloseStore?
  }

  lemma ManagerStepKept(w: World, a: Action)
    requires IsLocal(a) && Enabled(w, a) && Inv(w)
    ensures Inv(Step(w, a))
  {
    var m := w.managers[a.id];
    LocalStepKept(SharedOf(w), m, a);
    assert Step(w, a) == Put(w, a.id, Local1(m, a, w.now));
    OthersKept(w, Step(w, a), a.id);
  }

  lemma StepKept(w: World, a: Action)
    requires Enabled(w, a) && Inv(w)
    ensures Inv(Step(w, a))
  {
    if IsLocal(a) { ManagerStepKept(w, a); }
    else if a.LoadRead? { LoadReadKept(w, a); }
    else if a.ApplyStore? { ApplyStoreKept(w, a); }
    else if a.CloseStore? { CloseStoreKept(w, a); }
    else { EnvironmentKept(w, a); }
  }

  lemma {:induction false} RunKept(w: World, run: seq<Action>)
    requires Inv(w) && ValidRun(w, run)
    ensures Inv(Exec(w, run))
    decreases |run|
  {
    if run != [] {
      StepKept(w, run[0]);
      RunKept(Step(w, run[0]), run[1..]);
    }
  }

  // ---- Results -------------------------------------------------------------------------------------

  /** `a` neither replaces nor voids the policy manager `id` applied: it does not apply another one, is
      not stopped, and does not merge a record whose policy epoch differs from the one it knew. */
  predicate Leaves(w: World, a: Action, id: int)
    requires Enabled(w, a)
  {
    && (a.ApplyLocal? || a.Stop? ==> a.id != id)
    && (a.LoadMerge? && a.id == id && w.managers[id].local.counters.Some? ==>
          w.managers[id].pc.snap.epoch == w.managers[id].local.counters.value.epoch)
  }

  ghost predicate Undisturbed(w: World, run: seq<Action>, id: int)
    requires ValidRun(w, run)
    decreases |run|
  {
    run == [] || (Leaves(w, run[0], id) && Undisturbed(Step(w, run[0]), run[1..], id))
  }

  lemma GuardLeft(w: World, a: Action, id: int)
    requires Enabled(w, a) && id in w.managers && Leaves(w, a, id)
    ensures id in Step(w, a).managers && Step(w, a).managers[id].guard == w.managers[id].guard
    ensures Step(w, a).managers[id].tls == w.managers[id].tls
  {
  }

  lemma {:induction false} GuardSurvives(w: World, run: seq<Action>, id: int)
    requires ValidRun(w, run) && id in w.managers && Undisturbed(w, run, id)
    ensures id in Exec(w, run).managers && Exec(w, run).managers[id].guard == w.managers[id].guard
    ensures Exec(w, run).managers[id].tls == w.managers[id].tls
    decreases |run|
  {
    if run != [] {
      GuardLeft(w, run[0], id);
      GuardSurvives(Step(w, run[0]), run[1..], id);
    }
  }

  /** Downgrade protection.  After any history, let manager `id` apply a nonzero duration `d` over TLS.
      Then over every continuation in which it neither applies another policy nor reloads a changed policy
      epoch, it never dials plaintext before that expiry: not when its writes fail, not when its reads
      fail, and not when other managers reschedule, clear or restart around it. */
  lemma AppliedPolicyIsNeverDowngraded(w: World, before: seq<Action>, id: int, port: int, d: nat,
                                       after: seq<Action>, connects: bool)
    requires Initial(w) && ValidRun(w, before)
    requires Enabled(Exec(w, before), ApplyLocal(id, port, d)) && port > 0 && d > 0
    requires ValidRun(Step(Exec(w, before), ApplyLocal(id, port, d)), after)
    requires Undisturbed(Step(Exec(w, before), ApplyLocal(id, port, d)), after, id)
    requires Enabled(Exec(Step(Exec(w, before), ApplyLocal(id, port, d)), after), Dial(id, connects))
    ensures var learned := Exec(w, before);
            var end := Exec(Step(learned, ApplyLocal(id, port, d)), after);
            end.now < learned.now + d ==>
              DialsSecure(end.managers[id].local, learned.managers[id].tls, end.now)
  {
    var learned := Exec(w, before);
    var applied := Step(learned, ApplyLocal(id, port, d));
    RunKept(w, before);
    StepKept(learned, ApplyLocal(id, port, d));
    RunKept(applied, after);
    GuardSurvives(applied, after, id);
  }

  /** A committed policy protects every manager, including one started after it was learned: whoever
      merges a read of the stored epoch before the committed expiry dials TLS. */
  lemma CommittedPolicyProtectsEveryReader(w: World, run: seq<Action>, id: int)
    requires Initial(w) && ValidRun(w, run)
    requires Enabled(Exec(w, run), LoadMerge(id))
    ensures var end := Exec(w, run);
            end.rec.present && end.now < end.floor && end.managers[id].pc.snap.epoch == end.rec.epoch ==>
              DialsSecure(Step(end, LoadMerge(id)).managers[id].local, end.managers[id].tls, end.now)
  {
    RunKept(w, run);
    var end := Exec(w, run);
    LoadFailsClosed(end.managers[id].local, end.managers[id].pc.snap, end.now);
  }

  /** A policy stored by an earlier process protects every manager of this one, until its expiry or the next policy
      write. */
  lemma StoredPolicyProtectsEveryReader(w: World, run: seq<Action>, id: int)
    requires Initial(w) && w.floor == w.rec.until && w.rec.present && ValidRun(w, run)
    requires Enabled(Exec(w, run), LoadMerge(id))
    ensures var end := Exec(w, run);
            end.rec.epoch == w.rec.epoch && end.rec.present && end.now < w.rec.until
            && end.managers[id].pc.snap.epoch == end.rec.epoch ==>
              DialsSecure(Step(end, LoadMerge(id)).managers[id].local, end.managers[id].tls, end.now)
  {
    FloorKept(w, run);
    CommittedPolicyProtectsEveryReader(w, run, id);
  }

  /** Only a policy write moves the floor, and every policy write moves the epoch. */
  lemma {:induction false} FloorKept(w: World, run: seq<Action>)
    requires ValidRun(w, run)
    ensures w.rec.epoch <= Exec(w, run).rec.epoch
    ensures Exec(w, run).rec.epoch == w.rec.epoch ==> Exec(w, run).floor == w.floor
    decreases |run|
  {
    if run != [] {
      FloorStep(w, run[0]);
      FloorKept(Step(w, run[0]), run[1..]);
    }
  }

  lemma FloorStep(w: World, a: Action)
    requires Enabled(w, a)
    ensures w.rec.epoch <= Step(w, a).rec.epoch
    ensures Step(w, a).rec.epoch == w.rec.epoch ==> Step(w, a).floor == w.floor
  {
  }

  /** Within one policy epoch the stored expiry never falls below what the committing Set gave it. */
  lemma StoredExpiryNeverShortened(w: World, run: seq<Action>)
    requires Initial(w) && ValidRun(w, run)
    ensures var end := Exec(w, run); end.rec.present ==> end.floor <= end.rec.until
  {
    RunKept(w, run);
  }
}
