/** Rescheduling only ever moves a stored policy's expiry later: a second invariant over the runs of `StsProtocol`, about
    where each manager's duration comes from. */
module StsExpiry {
  import opened StsProtocol

  /** The stored expiry is no further off than the stored duration. */
  predicate RecordTimely(s: Shared) {
    s.rec.present && s.rec.duration > 0 ==> s.rec.until <= s.now + s.rec.duration
  }

  /** A duration learned under the stored policy epoch is the stored duration. */
  predicate DurationKnown(s: Shared, m: Manager) {
    match m.pc
    case Applying(_, _, _, _) => true
    case Applied(_, _, d, _, written) => d > 0 && Current(s, written) ==> d == s.rec.duration
    case _ =>
      !FullDirty(m.local) && Current(s, m.local.counters) && m.local.lastDur > 0 ==> m.local.lastDur == s.rec.duration
  }

  predicate SnapKnown(s: Shared, m: Manager) {
    m.pc.Read? && m.pc.snap.epoch == s.rec.epoch ==> m.pc.snap.duration == s.rec.duration
  }

  /** A reschedule under way that the store would accept does not move the expiry earlier. */
  predicate CloseTimely(s: Shared, m: Manager) {
    m.pc.Closing? && m.pc.expected == s.rec.revision && s.rec.present && s.rec.duration > 0 ==>
      s.rec.until <= m.pc.until <= s.now + s.rec.duration
  }

  predicate Timely(s: Shared, m: Manager) {
    DurationKnown(s, m) && SnapKnown(s, m) && CloseTimely(s, m)
  }

  ghost predicate AllTimely(w: World) {
    && RecordTimely(SharedOf(w))
    && forall id :: id in w.managers ==> Timely(SharedOf(w), w.managers[id])
  }

  lemma BystanderTimely(s: Shared, t: Shared, m: Manager)
    requires SharedMoves(s, t) && ManagerInv(s, m) && Timely(s, m)
    ensures Timely(t, m)
  {
  }

  lemma OthersTimely(w: World, w': World, id: int)
    requires Inv(w) && AllTimely(w) && SharedMoves(SharedOf(w), SharedOf(w')) && RecordTimely(SharedOf(w'))
    requires w'.managers.Keys <= w.managers.Keys + {id}
    requires forall j :: j in w'.managers && j != id ==> j in w.managers && w'.managers[j] == w.managers[j]
    requires id in w'.managers ==> Timely(SharedOf(w'), w'.managers[id])
    ensures AllTimely(w')
  {
    forall j | j in w'.managers && j != id ensures Timely(SharedOf(w'), w'.managers[j]) {
      BystanderTimely(SharedOf(w), SharedOf(w'), w.managers[j]);
    }
  }

  lemma LocalTimely(s: Shared, m: Manager, a: Action)
    requires ManagerEnabled(m, a) && SharedInv(s) && RecordTimely(s) && ManagerInv(s, m) && Timely(s, m)
    requires !a.Tick? && !a.Start?
    ensures Timely(s, Local1(m, a, s.now))
  {
  }

  lemma LocalStepTimely(w: World, a: Action)
    requires IsLocal(a) && Enabled(w, a) && Inv(w) && AllTimely(w)
    ensures AllTimely(Step(w, a))
  {
    var m := w.managers[a.id];
    LocalTimely(SharedOf(w), m, a);
    assert Step(w, a) == Put(w, a.id, Local1(m, a, w.now));
    OthersTimely(w, Step(w, a), a.id);
  }

  lemma StoreStepTimely(w: World, a: Action)
    requires a.LoadRead? || a.ApplyStore? || a.CloseStore?
    requires Enabled(w, a) && Inv(w) && AllTimely(w)
    ensures AllTimely(Step(w, a))
  {
    assert ManagerInv(SharedOf(w), w.managers[a.id]) && Timely(SharedOf(w), w.managers[a.id]);
    OthersTimely(w, Step(w, a), a.id);
  }

  lemma EnvironmentTimely(w: World, a: Action)
    requires a.Tick? || a.Start? || a.Stop?
    requires Enabled(w, a) && Inv(w) && AllTimely(w)
    ensures AllTimely(Step(w, a))
  {
    var id := if a.Tick? then 0 else a.id;
    if a.Tick? && id in w.managers { BystanderTimely(SharedOf(w), SharedOf(Step(w, a)), w.managers[id]); }
    OthersTimely(w, Step(w, a), id);
  }

  lemma StepTimely(w: World, a: Action)
    requires Enabled(w, a) && Inv(w) && AllTimely(w)
    ensures AllTimely(Step(w, a))
  {
    if IsLocal(a) {
      LocalStepTimely(w, a);
    } else if a.LoadRead? || a.ApplyStore? || a.CloseStore? {
      StoreStepTimely(w, a);
    } else {
      EnvironmentTimely(w, a);
    }
  }

  /** One step within a policy epoch never moves the stored expiry earlier. */
  lemma StepNeverShortens(w: World, a: Action)
    requires Enabled(w, a) && Inv(w) && AllTimely(w)
    ensures w.rec.epoch <= Step(w, a).rec.epoch
    ensures Step(w, a).rec.epoch == w.rec.epoch ==>
            Step(w, a).rec.present == w.rec.present && w.rec.until <= Step(w, a).rec.until
  {
    if a.CloseStore? { assert Timely(SharedOf(w), w.managers[a.id]); }
  }

  lemma {:induction false} RunNeverShortens(w: World, run: seq<Action>)
    requires Inv(w) && AllTimely(w) && ValidRun(w, run)
    ensures w.rec.epoch <= Exec(w, run).rec.epoch
    ensures Exec(w, run).rec.epoch == w.rec.epoch ==> w.rec.until <= Exec(w, run).rec.until
    ensures Inv(Exec(w, run)) && AllTimely(Exec(w, run))
    decreases |run|
  {
    if run != [] {
      StepKept(w, run[0]);
      StepTimely(w, run[0]);
      StepNeverShortens(w, run[0]);
      RunNeverShortens(Step(w, run[0]), run[1..]);
    }
  }

  /** After any history, and over any continuation that sees no policy write: the stored expiry only moves later, however
      many managers reschedule it and however their reads and writes interleave. */
  lemma ExpiryOnlyMovesLater(w: World, before: seq<Action>, after: seq<Action>)
    requires Initial(w) && (w.rec.present ==> w.floor == w.rec.until) && ValidRun(w, before) && ValidRun(Exec(w, before), after)
    ensures var mid := Exec(w, before);
            var end := Exec(mid, after);
            end.rec.epoch == mid.rec.epoch ==> mid.rec.until <= end.rec.until
  {
    RunNeverShortens(w, before);
    RunNeverShortens(Exec(w, before), after);
  }
}
