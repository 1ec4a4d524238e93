/** MONITOR list reconciliation: the manager's record of the nicks it watches, the commands it enqueues,
    and recovery from ERR_MONLISTFULL (734). */
module Monitor {
  import opened Text
  import opened Casemap

  const MAX_TARGETS := 1024
  const MAX_NICK := 48
  const CHUNK := 10
  const QUEUE := 512

  const SEPARATORS := {' ', ',', '\r', '\n', '\0'}

  predicate ValidTarget(nick: string) {
    nick != "" && |nick| <= MAX_NICK && forall c :: c in SEPARATORS ==> c !in nick
  }

  predicate AllValid(nicks: seq<string>) {
    forall n :: n in nicks ==> ValidTarget(n)
  }

  // ---- The server's list as replayed from the commands sent -----------------------------------------

  datatype Command = Clear | Remove(list: string) | Add(list: string)

  function Obey(cm: CaseMapping, watched: set<string>, c: Command): set<string> {
    match c
    case Clear => {}
    case Remove(list) => watched - Folds(cm, Split(list, ','))
    case Add(list) => watched + Folds(cm, Split(list, ','))
  }

  function Replay(cm: CaseMapping, watched: set<string>, log: seq<Command>): set<string>
    decreases |log|
  {
    if log == [] then watched else Replay(cm, Obey(cm, watched, log[0]), log[1..])
  }

  lemma {:induction false} ReplayAppend(cm: CaseMapping, watched: set<string>, a: seq<Command>, b: seq<Command>)
    ensures Replay(cm, watched, a + b) == Replay(cm, Replay(cm, watched, a), b)
    decreases |a|
  {
    if a == [] {
      assert a + b == b;
    } else {
      assert (a + b)[1..] == a[1..] + b;
      ReplayAppend(cm, Obey(cm, watched, a[0]), a[1..], b);
    }
  }

  // ---- Wire commands for a list of targets ------------------------------------------------------------

  function Chunks(xs: seq<string>): seq<seq<string>> {
    if xs == [] then []
    else if |xs| <= CHUNK then [xs]
    else [xs[..CHUNK]] + Chunks(xs[CHUNK..])
  }

  function Commands(chunks: seq<seq<string>>, adding: bool): seq<Command> {
    if chunks == [] then []
    else
      var list := Join(chunks[0], ',');
      [if adding then Add(list) else Remove(list)] + Commands(chunks[1..], adding)
  }

  function Listing(xs: seq<string>, adding: bool): seq<Command> {
    Commands(Chunks(xs), adding)
  }

  lemma FoldsAppend(cm: CaseMapping, a: seq<string>, b: seq<string>)
    ensures Folds(cm, a + b) == Folds(cm, a) + Folds(cm, b)
  {
    forall f | f in Folds(cm, a) + Folds(cm, b) ensures f in Folds(cm, a + b) {
      var n :| (n in a || n in b) && Fold(cm, n) == f;
      assert n in a + b;
    }
  }

  lemma ChunkObeyed(cm: CaseMapping, watched: set<string>, chunk: seq<string>, adding: bool)
    requires chunk != [] && AllValid(chunk)
    ensures Obey(cm, watched, Commands([chunk], adding)[0]) ==
            if adding then watched + Folds(cm, chunk) else watched - Folds(cm, chunk)
  {
    SplitJoin(chunk, ',');
  }

  /** Sending a list chunk by chunk watches, or unwatches, exactly its folded nicks. */
  lemma {:induction false} ListingReplayed(cm: CaseMapping, watched: set<string>, xs: seq<string>, adding: bool)
    requires AllValid(xs)
    ensures Replay(cm, watched, Listing(xs, adding)) ==
            if adding then watched + Folds(cm, xs) else watched - Folds(cm, xs)
    decreases |xs|
  {
    if xs == [] {
    } else if |xs| <= CHUNK {
      ChunkObeyed(cm, watched, xs, adding);
    } else {
      var a, b := xs[..CHUNK], xs[CHUNK..];
      assert xs == a + b;
      FoldsAppend(cm, a, b);
      ChunkObeyed(cm, watched, a, adding);
      ListingReplayed(cm, Obey(cm, watched, Commands([a], adding)[0]), b, adding);
      assert Chunks(xs)[1..] == Chunks(b);
    }
  }

  // ---- The target list ----------------------------------------------------------------------------------

  /** The valid entries whose fold did not occur before, in order. */
  function Kept(cm: CaseMapping, desired: seq<string>): seq<string> {
    if desired == [] then []
    else
      var before := Kept(cm, desired[..|desired| - 1]);
      var n := desired[|desired| - 1];
      if ValidTarget(n) && Fold(cm, n) !in Folds(cm, before) then before + [n] else before
  }

  function Take<T>(xs: seq<T>, n: nat): seq<T> {
    if |xs| <= n then xs else xs[..n]
  }

  function Targets(cm: CaseMapping, desired: seq<string>, limit: nat): seq<string> {
    Take(Kept(cm, desired), limit)
  }

  predicate FoldDistinct(cm: CaseMapping, xs: seq<string>) {
    forall i, j :: 0 <= i < j < |xs| ==> Fold(cm, xs[i]) != Fold(cm, xs[j])
  }

  function ValidFolds(cm: CaseMapping, desired: seq<string>): set<string> {
    set n | n in desired && ValidTarget(n) :: Fold(cm, n)
  }

  lemma FoldsOneMore(cm: CaseMapping, names: seq<string>, i: nat)
    requires i < |names|
    ensures Folds(cm, names[..i + 1]) == Folds(cm, names[..i]) + {Fold(cm, names[i])}
  {
    assert names[..i + 1] == names[..i] + [names[i]];
    FoldsAppend(cm, names[..i], [names[i]]);
    assert Folds(cm, [names[i]]) == {Fold(cm, names[i])};
  }

  lemma ValidFoldsAppend(cm: CaseMapping, front: seq<string>, n: string)
    ensures ValidFolds(cm, front + [n]) == ValidFolds(cm, front) + if ValidTarget(n) then {Fold(cm, n)} else {}
  {
    var desired := front + [n];
    forall f | f in ValidFolds(cm, front) ensures f in ValidFolds(cm, desired) {
      var m :| m in front && ValidTarget(m) && Fold(cm, m) == f;
      assert m in desired;
    }
    if ValidTarget(n) { assert n in desired; }
  }

  /** Nothing valid is lost, nothing invalid is kept, and no fold occurs twice. */
  lemma {:induction false} KeptExactly(cm: CaseMapping, desired: seq<string>)
    ensures AllValid(Kept(cm, desired)) && FoldDistinct(cm, Kept(cm, desired))
    ensures Folds(cm, Kept(cm, desired)) == ValidFolds(cm, desired)
  {
    if desired != [] {
      var front, n := desired[..|desired| - 1], desired[|desired| - 1];
      KeptExactly(cm, front);
      assert desired == front + [n];
      ValidFoldsAppend(cm, front, n);
      FoldsAppend(cm, Kept(cm, front), [n]);
      assert Folds(cm, [n]) == {Fold(cm, n)};
    }
  }

  lemma {:induction false} KeptPrefix(cm: CaseMapping, desired: seq<string>, i: nat)
    requires i <= |desired|
    ensures Kept(cm, desired[..i]) <= Kept(cm, desired)
    decreases |desired|
  {
    if i == |desired| {
      assert desired[..i] == desired;
    } else {
      var front := desired[..|desired| - 1];
      KeptPrefix(cm, front, i);
      assert front[..i] == desired[..i];
    }
  }

  /** The two ways to reach a target list leave the server with the same set: removing whatever is active
      and unwanted (in any order) then adding what is missing, or clearing and adding everything. */
  lemma DiffEqualsRebuild(cm: CaseMapping, active: set<string>, removed: seq<string>, added: seq<string>,
                          targets: seq<string>)
    requires AllValid(removed) && AllValid(added) && AllValid(targets)
    requires Folds(cm, removed) == active - Folds(cm, targets)
    requires Folds(cm, added) == Folds(cm, targets) - active
    ensures Replay(cm, active, Listing(removed, false) + Listing(added, true)) == Folds(cm, targets)
    ensures Replay(cm, active, [Clear] + Listing(targets, true)) == Folds(cm, targets)
  {
    ReplayAppend(cm, active, Listing(removed, false), Listing(added, true));
    ListingReplayed(cm, active, removed, false);
    ListingReplayed(cm, active - Folds(cm, removed), added, true);
    ListingReplayed(cm, {}, targets, true);
    assert ([Clear] + Listing(targets, true))[1..] == Listing(targets, true);
  }

  /** The entries whose fold is not there yet, in order. */
  function Missing(cm: CaseMapping, have: set<string>, order: seq<string>): seq<string> {
    if order == [] then []
    else
      var before := Missing(cm, have, order[..|order| - 1]);
      var n := order[|order| - 1];
      if Fold(cm, n) in have then before else before + [n]
  }

  lemma {:induction false} MissingFolds(cm: CaseMapping, have: set<string>, order: seq<string>)
    requires AllValid(order)
    ensures AllValid(Missing(cm, have, order)) && Folds(cm, Missing(cm, have, order)) == Folds(cm, order) - have
  {
    if order != [] {
      var front, n := order[..|order| - 1], order[|order| - 1];
      MissingFolds(cm, have, front);
      assert order == front + [n];
      FoldsAppend(cm, front, [n]);
      FoldsAppend(cm, Missing(cm, have, front), [n]);
      assert Folds(cm, [n]) == {Fold(cm, n)};
    }
  }

  /** Sending the difference takes the server from the active set to the targets. */
  lemma DeltaReplayed(cm: CaseMapping, log: seq<Command>, removed: seq<string>, added: seq<string>,
                      targets: seq<string>)
    requires AllValid(removed) && AllValid(targets) && added == Missing(cm, Replay(cm, {}, log), targets)
    requires Folds(cm, removed) == Replay(cm, {}, log) - Folds(cm, targets)
    ensures AllValid(added)
    ensures Replay(cm, {}, log + (Listing(removed, false) + Listing(added, true))) == Folds(cm, targets)
    ensures Replay(cm, {}, log) - Folds(cm, removed) + Folds(cm, added) == Folds(cm, targets)
  {
    var active := Replay(cm, {}, log);
    MissingFolds(cm, active, targets);
    ReplayAppend(cm, {}, log, Listing(removed, false) + Listing(added, true));
    DiffEqualsRebuild(cm, active, removed, added, targets);
  }

  /** Clearing and adding everything takes the server from any set to the targets. */
  lemma RebuildReplayed(cm: CaseMapping, log: seq<Command>, targets: seq<string>)
    requires AllValid(targets)
    ensures Replay(cm, {}, log + ([Clear] + Listing(targets, true))) == Folds(cm, targets)
  {
    var commands := [Clear] + Listing(targets, true);
    ReplayAppend(cm, {}, log, commands);
    ListingReplayed(cm, {}, targets, true);
    assert commands[1..] == Listing(targets, true);
  }

  // ---- 734 recovery ---------------------------------------------------------------------------------------

  /** The limit fields; `cap` is meaningful once a rebuild has succeeded. */
  datatype Recovery = Recovery(limit734: int, pending: bool, recovered: bool, cap: int)

  const NO_RECOVERY := Recovery(0, false, false, 0)

  function Effective(advertised: int, limit734: int): int {
    if limit734 > 0 && (advertised == 0 || limit734 < advertised) then limit734 else advertised
  }

  function TargetLimit(advertised: int, limit734: int): (limit: nat)
    ensures 1 <= limit <= MAX_TARGETS
  {
    var e := Effective(advertised, limit734);
    if e <= 0 || e > MAX_TARGETS then MAX_TARGETS else e
  }

  function Rebuilt(r: Recovery, advertised: int, sent: bool): Recovery {
    if sent then Recovery(r.limit734, false, true, TargetLimit(advertised, r.limit734)) else r
  }

  /** Does a 734 revealing `limit` (not positive when unparseable) get past the repeat check at the top
      of MonitorRejected? */
  predicate Heard(r: Recovery, limit: int) {
    !(r.recovered && limit <= 0)
  }

  function Learn(r: Recovery, learned: int): Recovery {
    if learned > 0 && (r.limit734 == 0 || learned < r.limit734) then r.(limit734 := learned) else r
  }

  predicate Stale(r: Recovery, advertised: int) {
    r.recovered && TargetLimit(advertised, r.limit734) >= r.cap
  }

  /** MonitorRejected on the limit fields; `learned` is the cap in the numeric or the fallback estimate. */
  function Rejected(r: Recovery, advertised: int, limit: int, learned: int, sent: bool): Recovery {
    if !Heard(r, limit) then r
    else if Stale(Learn(r, learned), advertised) then Learn(r, learned)
    else Rebuilt(Learn(r, learned).(pending := true), advertised, sent)
  }

  /** ReconcileMonitored on the limit fields. */
  function Reconciled(r: Recovery, advertised: int, sent: bool): Recovery {
    if r.pending then Rebuilt(r, advertised, sent) else r
  }

  datatype Event = Numeric734(limit: int, learned: int, sent: bool) | ReconcileCall(sent: bool)

  function React(r: Recovery, advertised: int, e: Event): Recovery {
    match e
    case Numeric734(limit, learned, sent) => Rejected(r, advertised, limit, learned, sent)
    case ReconcileCall(sent) => Reconciled(r, advertised, sent)
  }

  predicate Rebuilds(r: Recovery, advertised: int, e: Event) {
    match e
    case Numeric734(limit, learned, sent) =>
      Heard(r, limit) && !Stale(Learn(r, learned), advertised) && sent
    case ReconcileCall(sent) => r.pending && sent
  }

  function After(r: Recovery, advertised: int, events: seq<Event>): Recovery
    decreases |events|
  {
    if events == [] then r else After(React(r, advertised, events[0]), advertised, events[1..])
  }

  function CountRebuilds(r: Recovery, advertised: int, events: seq<Event>): nat
    decreases |events|
  {
    if events == [] then 0
    else (if Rebuilds(r, advertised, events[0]) then 1 else 0) +
         CountRebuilds(React(r, advertised, events[0]), advertised, events[1..])
  }

  predicate RecoveryInv(r: Recovery, advertised: int) {
    && r.limit734 >= 0
    && (r.recovered ==> 1 <= r.cap <= MAX_TARGETS)
    && (r.recovered && r.pending ==> TargetLimit(advertised, r.limit734) < r.cap)
  }

  /** Once recovered, every further rebuild strictly tightens the cap. */
  lemma ReactTightens(r: Recovery, advertised: int, e: Event)
    requires RecoveryInv(r, advertised)
    ensures RecoveryInv(React(r, advertised, e), advertised)
    ensures Rebuilds(r, advertised, e) ==>
              React(r, advertised, e).recovered && (r.recovered ==> React(r, advertised, e).cap < r.cap)
    ensures !Rebuilds(r, advertised, e) ==>
              React(r, advertised, e).recovered == r.recovered && React(r, advertised, e).cap == r.cap
  {
  }

  lemma {:induction false} RebuildsBoundedByCap(r: Recovery, advertised: int, events: seq<Event>)
    requires RecoveryInv(r, advertised) && r.recovered
    ensures CountRebuilds(r, advertised, events) < r.cap
    ensures After(r, advertised, events).cap <= r.cap - CountRebuilds(r, advertised, events)
    decreases |events|
  {
    if events != [] {
      ReactTightens(r, advertised, events[0]);
      RebuildsBoundedByCap(React(r, advertised, events[0]), advertised, events[1..]);
    }
  }

  function FirstCap(r: Recovery, advertised: int, events: seq<Event>): int
    decreases |events|
  {
    if events == [] then 0
    else if Rebuilds(r, advertised, events[0]) then React(r, advertised, events[0]).cap
    else FirstCap(React(r, advertised, events[0]), advertised, events[1..])
  }

  /** 734 recovery terminates: a whole connection causes at most as many clear-and-rebuilds as the first
      cap it recovered to, whatever numerics, failed sends and reconciles it sees. */
  lemma {:induction false} RecoveryTerminates(r: Recovery, advertised: int, events: seq<Event>)
    requires RecoveryInv(r, advertised) && !r.recovered
    ensures CountRebuilds(r, advertised, events) <= FirstCap(r, advertised, events) <= MAX_TARGETS
    decreases |events|
  {
    if events != [] {
      var next := React(r, advertised, events[0]);
      ReactTightens(r, advertised, events[0]);
      if Rebuilds(r, advertised, events[0]) {
        RebuildsBoundedByCap(next, advertised, events[1..]);
      } else {
        RecoveryTerminates(next, advertised, events[1..]);
      }
    }
  }

  /** The fallback estimate of MonitorRejected: the active count less the rejected nicks it holds. */
  function Learned(cm: CaseMapping, active: map<string, string>, nicks: seq<string>, limit: int): int {
    if limit > 0 then limit else |active| - |active.Keys * Folds(cm, nicks)|
  }

  // ---- The manager -----------------------------------------------------------------------------------------

  class MonitorManager {
    const cm: CaseMapping           // fixed for the connection
    var registered: bool
    var advertised: bool            // ISUPPORT MONITOR present
    var advertisedLimit: int        // its value, 0 when absent or unparseable
    var queued: nat                 // messages waiting for the writer
    var active: map<string, string> // folded nick -> wire spelling
    var limit734: int
    var rebuildPending: bool
    var recovered734: bool
    var recoveredCap: int
    var gen: nat
    ghost var log: seq<Command>     // every MONITOR command enqueued on this connection

    ghost function RecoveryView(): Recovery
      reads this
    {
      Recovery(limit734, rebuildPending, recovered734, recoveredCap)
    }

    ghost predicate Valid()
      reads this
    {
      && (forall f :: f in active ==> ValidTarget(active[f]) && Fold(cm, active[f]) == f)
      && active.Keys == Replay(cm, {}, log)
    }

    ghost function Wanted(desired: seq<string>): set<string>
      reads this
    {
      Folds(cm, Targets(cm, desired, TargetLimit(advertisedLimit, limit734)))
    }

    constructor (cm: CaseMapping)
      ensures Valid() && this.cm == cm && active == map[] && log == [] && !registered
    {
      this.cm := cm;
      registered, advertised, advertisedLimit, queued := false, false, 0, 0;
      active := map[];
      limit734, rebuildPending, recovered734, recoveredCap := 0, false, false, 0;
      gen := 0;
      log := [];
    }

    /** runOnce: a new connection starts from an empty server list. */
    method NewConnection()
      modifies this
      ensures Valid() && active == map[] && log == [] && RecoveryView() == NO_RECOVERY && gen == old(gen) + 1
      ensures advertisedLimit == 0 && !registered
    {
      registered, advertised, advertisedLimit, queued := false, false, 0, 0;
      gen := gen + 1;
      active := map[];
      limit734, rebuildPending, recovered734, recoveredCap := 0, false, false, 0;
      log := [];
    }

    /** The connection registered, and 005 set or dropped the MONITOR token. */
    method Configure(registered: bool, advertised: bool, advertisedLimit: int)
      requires Valid()
      modifies this`registered, this`advertised, this`advertisedLimit
      ensures Valid()
      ensures this.registered == registered && this.advertised == advertised
      ensures this.advertisedLimit == if advertised then advertisedLimit else 0
    {
      this.registered, this.advertised := registered, advertised;
      this.advertisedLimit := if advertised then advertisedLimit else 0;
    }

    /** The writer took one message off the queue. */
    method Dequeued()
      requires Valid() && queued > 0
      modifies this`queued
      ensures Valid() && queued == old(queued) - 1
    {
      queued := queued - 1;
    }

    /** All of `commands` or none; `linesFit` is the outcome of the framing and length checks. */
    method SendAll(commands: seq<Command>, linesFit: bool) returns (sent: bool)
      modifies this`queued, this`log
      ensures sent == (linesFit && registered && old(queued) + |commands| <= QUEUE)
      ensures log == if sent then old(log) + commands else old(log)
      ensures queued == if sent then old(queued) + |commands| else old(queued)
    {
      if !linesFit || !registered || QUEUE - queued < |commands| { return false; }
      queued := queued + |commands|;
      log := log + commands;
      return true;
    }

    method MonitorTargets(desired: seq<string>) returns (targetSet: set<string>, order: seq<string>)
      ensures order == Targets(cm, desired, TargetLimit(advertisedLimit, limit734))
      ensures targetSet == Folds(cm, order)
    {
      var limit := TargetLimit(advertisedLimit, limit734);
      targetSet, order := {}, [];
      var i := 0;
      while i < |desired|
        invariant 0 <= i <= |desired|
        invariant order == Kept(cm, desired[..i]) && |order| <= limit
        invariant targetSet == Folds(cm, order)
      {
        var n := desired[i];
        assert desired[..i + 1][..i] == desired[..i];
        var f := Fold(cm, n);
        if ValidTarget(n) && f !in targetSet {
          if |order| >= limit {
            KeptPrefix(cm, desired, i + 1);
            break;
          }
          FoldsAppend(cm, order, [n]);
          assert Folds(cm, [n]) == {f};
          targetSet := targetSet + {f};
          order := order + [n];
        }
        i := i + 1;
      }
      assert i == |desired| ==> desired[..i] == desired;
    }

    method ChunkTargets(targets: seq<string>) returns (out: seq<seq<string>>)
      ensures out == Chunks(targets)
    {
      out := [];
      var rest := targets;
      while |rest| > 0
        invariant out + Chunks(rest) == Chunks(targets)
        decreases |rest|
      {
        var end := if CHUNK > |rest| then |rest| else CHUNK;
        assert |rest| <= CHUNK ==> rest[..end] == rest && rest[end..] == [];
        out := out + [rest[..end]];
        rest := rest[end..];
      }
    }

    /** The active nicks outside the target, in the map's own (arbitrary) order. */
    method Removals(targetSet: set<string>) returns (wire: seq<string>, folded: set<string>)
      requires Valid()
      ensures folded == active.Keys - targetSet
      ensures AllValid(wire) && Folds(cm, wire) == folded && FoldDistinct(cm, wire)
    {
      wire, folded := [], {};
      var todo := active.Keys;
      while todo != {}
        invariant todo <= active.Keys
        invariant folded == (active.Keys - todo) - targetSet
        invariant AllValid(wire) && Folds(cm, wire) == folded && FoldDistinct(cm, wire)
        decreases todo
      {
        var f :| f in todo;
        todo := todo - {f};
        if f !in targetSet {
          FoldsAppend(cm, wire, [active[f]]);
          assert Folds(cm, [active[f]]) == {f};
          wire, folded := wire + [active[f]], folded + {f};
        }
      }
    }

    /** The targets that are not active, in order. */
    method Additions(order: seq<string>) returns (wire: seq<string>)
      ensures wire == Missing(cm, active.Keys, order)
    {
      wire := [];
      for i := 0 to |order|
        invariant wire == Missing(cm, active.Keys, order[..i])
      {
        assert order[..i + 1][..i] == order[..i];
        if Fold(cm, order[i]) !in active {
          wire := wire + [order[i]];
        }
      }
      assert order[..|order|] == order;
    }

    /** Record a list of added nicks under their folds. */
    method Record(base: map<string, string>, nicks: seq<string>) returns (m: map<string, string>)
      requires AllValid(nicks)
      requires forall f :: f in base ==> ValidTarget(base[f]) && Fold(cm, base[f]) == f
      ensures m.Keys == base.Keys + Folds(cm, nicks)
      ensures forall f :: f in m ==> ValidTarget(m[f]) && Fold(cm, m[f]) == f
    {
      m := base;
      for i := 0 to |nicks|
        invariant m.Keys == base.Keys + Folds(cm, nicks[..i])
        invariant forall f :: f in m ==> ValidTarget(m[f]) && Fold(cm, m[f]) == f
      {
        assert nicks[..i + 1] == nicks[..i] + [nicks[i]];
        FoldsAppend(cm, nicks[..i], [nicks[i]]);
        assert Folds(cm, [nicks[i]]) == {Fold(cm, nicks[i])};
        m := m[Fold(cm, nicks[i]) := nicks[i]];
      }
      assert nicks[..|nicks|] == nicks;
    }

    method SendLists(removed: seq<string>, added: seq<string>, linesFit: bool) returns (sent: bool)
      modifies this`queued, this`log
      ensures log == if sent then old(log) + (Listing(removed, false) + Listing(added, true)) else old(log)
      ensures !sent ==> queued == old(queued)
    {
      var minus := ChunkTargets(removed);
      var plus := ChunkTargets(added);
      sent := SendAll(Commands(minus, false) + Commands(plus, true), linesFit);
    }

    /** reconcileLocked: enqueue only the difference, as one atomic send. */
    method ReconcileDelta(desired: seq<string>, linesFit: bool) returns (ok: bool)
      requires Valid()
      modifies this`queued, this`log, this`active
      ensures Valid()
      ensures if ok then active.Keys == Wanted(desired)
              else active == old(active) && log == old(log) && queued == old(queued)
    {
      KeptExactly(cm, desired);
      var targetSet, order := MonitorTargets(desired);
      var removeWire, removeFolded := Removals(targetSet);
      var addWire := Additions(order);
      DeltaReplayed(cm, log, removeWire, addWire, order);
      if |removeWire| == 0 && |addWire| == 0 {
        assert Folds(cm, removeWire) == {} && Folds(cm, addWire) == {};
        return true;
      }
      ok := SendLists(removeWire, addWire, linesFit);
      if !ok { return; }
      active := Record(active - removeFolded, addWire);
    }

    /** completeMonitorRebuildLocked: MONITOR C and the whole target list as one atomic send. */
    method CompleteRebuild(desired: seq<string>, linesFit: bool) returns (ok: bool)
      requires Valid() && rebuildPending
      modifies this`queued, this`log, this`active, this`rebuildPending, this`recovered734, this`recoveredCap
      ensures Valid()
      ensures RecoveryView() == Rebuilt(old(RecoveryView()), advertisedLimit, ok)
      ensures if ok then active.Keys == Wanted(desired)
              else active == old(active) && log == old(log) && queued == old(queued)
    {
      KeptExactly(cm, desired);
      var _, order := MonitorTargets(desired);
      var chunks := ChunkTargets(order);
      var commands := [Clear] + Commands(chunks, true);
      RebuildReplayed(cm, log, order);
      ok := SendAll(commands, linesFit);
      if !ok { return; }
      active := Record(map[], order);
      rebuildPending := false;
      recovered734 := true;
      recoveredCap := TargetLimit(advertisedLimit, limit734);
    }

    method ReconcileMonitored(desired: seq<string>, linesFit: bool) returns (ok: bool)
      requires Valid()
      modifies this
      ensures Valid()
      ensures registered == old(registered) && advertised == old(advertised) && gen == old(gen)
      ensures !(registered && advertised) ==> ok && active == old(active) && log == old(log)
      ensures !ok ==> active == old(active) && log == old(log) && queued == old(queued)
      ensures registered && advertised && ok ==> active.Keys == Wanted(desired) == Replay(cm, {}, log)
      ensures registered && advertised ==>
                RecoveryView() == Reconciled(old(RecoveryView()), advertisedLimit, ok)
      ensures advertisedLimit == old(advertisedLimit)
    {
      if !registered || !advertised { return true; }
      if rebuildPending {
        ok := CompleteRebuild(desired, linesFit);
      } else {
        ok := ReconcileDelta(desired, linesFit);
      }
    }

    method CountRejected(nicks: seq<string>, limit: int) returns (learned: int)
      ensures learned == Learned(cm, active, nicks, limit)
    {
      learned := limit;
      if learned <= 0 {
        learned := |active|;
        var seen: set<string> := {};
        for i := 0 to |nicks|
          invariant seen == active.Keys * Folds(cm, nicks[..i])
          invariant learned == |active| - |seen|
        {
          FoldsOneMore(cm, nicks, i);
          var f := Fold(cm, nicks[i]);
          if f in active && f !in seen {
            learned := learned - 1;
            seen := seen + {f};
          }
        }
        assert nicks[..|nicks|] == nicks;
      }
    }

    method TightenLimit(learned: int)
      requires Valid()
      modifies this`limit734
      ensures Valid() && RecoveryView() == Learn(old(RecoveryView()), learned)
    {
      if learned > 0 && (limit734 == 0 || learned < limit734) {
        limit734 := learned;
      }
    }

    /** MonitorRejected once the cap is known: tighten it and rebuild unless the numeric is stale. */
    method RecoverFrom(learned: int, desired: seq<string>, linesFit: bool) returns (ok: bool)
      requires Valid()
      modifies this`queued, this`log, this`active, this`limit734, this`rebuildPending, this`recovered734, this`recoveredCap
      ensures Valid()
      ensures var r := Learn(old(RecoveryView()), learned);
              if Stale(r, advertisedLimit)
              then ok && RecoveryView() == r && active == old(active) && log == old(log)
              else RecoveryView() == Rebuilt(r.(pending := true), advertisedLimit, ok) &&
                   (ok ==> active.Keys == Wanted(desired))
      ensures !ok ==> active == old(active) && log == old(log) && queued == old(queued)
    {
      TightenLimit(learned);
      var effective := TargetLimit(advertisedLimit, limit734);
      if recovered734 && effective >= recoveredCap { return true; }
      rebuildPending := true;
      ok := CompleteRebuild(desired, linesFit);
    }

    method MonitorRejected(nicks: seq<string>, limit: int, eventGen: nat, desired: seq<string>, linesFit: bool)
      returns (ok: bool)
      requires Valid()
      modifies this
      ensures Valid()
      ensures registered == old(registered) && advertised == old(advertised) && gen == old(gen)
      ensures eventGen != old(gen) ==> ok && active == old(active) && log == old(log) && RecoveryView() == old(RecoveryView())
      ensures eventGen == old(gen) ==>
                RecoveryView() == Rejected(old(RecoveryView()), old(advertisedLimit), limit,
                                           old(Learned(cm, active, nicks, limit)), ok)
      ensures eventGen == old(gen) && ok &&
              Rebuilds(old(RecoveryView()), old(advertisedLimit),
                       Numeric734(limit, old(Learned(cm, active, nicks, limit)), true)) ==>
                active.Keys == Wanted(desired)
      ensures !ok ==> active == old(active) && log == old(log) && queued == old(queued)
      ensures advertisedLimit == old(advertisedLimit)
    {
      if eventGen != gen { return true; }
      if recovered734 && limit <= 0 { return true; }
      var learned := CountRejected(nicks, limit);
      ok := RecoverFrom(learned, desired, linesFit);
    }
  }
}
