/** Strict transport security: one manager's view of a hostname policy, and the shared record.

    `Local` holds the mutex-guarded STS fields of one manager.  Every lock section of the manager is a
    function on `Local`; `StsManager` performs the same sections on mutable fields and is proved to
    refine those functions.  Times are in milliseconds, the resolution of the stored record. */
module StsPolicy {
  import opened Wrappers

  const MAX_PORT := 65535

  /** A zero `time.Time` is `Unset`. */
  datatype Expiry = Unset | At(time: int)

  /** The stored hostname record; `present` is false for an absent row and for a cleared tombstone. */
  datatype Record = Record(present: bool, port: int, until: int, duration: int, revision: nat, epoch: nat)

  predicate ValidRecord(r: Record) {
    r.present ==> 0 < r.port <= MAX_PORT
  }

  predicate ValidPort(port: int) {
    0 < port <= MAX_PORT
  }

  /** SetSTSPolicy: a new semantic policy, so both counters advance. */
  function StoreSet(r: Record, port: int, until: int, duration: int): Record {
    Record(true, port, until, duration, r.revision + 1, r.epoch + 1)
  }

  /** ClearSTSPolicy: a tombstone that keeps the counters moving. */
  function StoreClear(r: Record): Record {
    Record(false, 0, 0, 0, r.revision + 1, r.epoch + 1)
  }

  /** The compare-and-swap test of RescheduleSTSPolicy. */
  predicate CanReschedule(r: Record, expected: nat) {
    r.present && r.revision == expected && r.duration >= 1
  }

  /** RescheduleSTSPolicy: expiry and revision move, the policy epoch does not. */
  function StoreReschedule(r: Record, until: int): Record {
    r.(until := until, revision := r.revision + 1)
  }

  datatype Counters = Counters(revision: nat, epoch: nat)

  datatype Local = Local(
    port: int,
    until: Expiry,
    lastDur: int,
    counters: Option<Counters>,    // revision and policy epoch, when known
    session: bool,                 // insecure upgrade not yet confirmed over TLS
    dirty: bool,                   // a write of the active policy failed
    dirtyFull: bool,               // ... and it was a full policy write
    dirtyBase: Option<nat>)        // policy epoch the failed write was based on

  const FRESH := Local(0, Unset, 0, None, false, false, false, None)

  predicate LocalActive(l: Local, now: int) {
    l.port > 0 && (l.until.Unset? || now < l.until.time)
  }

  predicate StoreActive(r: Record, now: int) {
    r.present && now < r.until
  }

  predicate NewerShared(l: Local, r: Record) {
    l.dirtyBase.Some? && r.epoch != l.dirtyBase.value
  }

  /** resolveSTSDirtyLocked: must a failed-write policy outlive the record just read? */
  predicate Retains(l: Local, r: Record, now: int) {
    && l.dirty
    && !NewerShared(l, r)
    && LocalActive(l, now)
    && (l.dirtyFull || !StoreActive(r, now) || (l.until.At? && l.until.time > r.until))
  }

  function Seen(r: Record): Option<Counters> {
    Some(Counters(r.revision, r.epoch))
  }

  /** loadSTS after a successful read of `r`. */
  function Load(l: Local, r: Record, now: int): Local {
    if Retains(l, r, now) then
      l.(counters := Seen(r), dirtyBase := Some(r.epoch))
    else
      var clean := if l.dirty then l.(dirty := false, dirtyFull := false, dirtyBase := None) else l;
      var counted := clean.(counters := Seen(r));
      if StoreActive(r, now) then
        counted.(port := r.port, until := At(r.until), lastDur := r.duration, session := false)
      else if !l.session then
        counted.(port := 0, until := Unset, lastDur := 0)
      else counted
  }

  /** effectiveAddr: is the next dial over TLS? */
  predicate DialsSecure(l: Local, tlsConfigured: bool, now: int) {
    tlsConfigured || LocalActive(l, now)
  }

  /** applySTS, first lock section: adopt the advertised duration `d` at once. */
  function BeginApply(l: Local, port: int, d: nat, now: int): Local {
    if d == 0 then l.(port := 0, until := Unset, lastDur := 0, session := false)
    else l.(port := port, until := At(now + d), lastDur := d, session := false)
  }

  /** applySTS, second lock section: `written` carries the new counters of a committed write.
      `base` is the state before BeginApply. */
  function FinishApply(l: Local, base: Local, d: nat, written: Option<Counters>): Local {
    if d == 0 then
      l.(counters := if written.Some? then written else l.counters,
         dirty := false, dirtyFull := false, dirtyBase := None)
    else if written.Some? then
      l.(counters := written, dirty := false, dirtyFull := false, dirtyBase := None)
    else
      l.(counters := base.counters, dirty := true, dirtyFull := true, dirtyBase := KnownEpoch(base))
  }

  function KnownEpoch(l: Local): Option<nat> {
    if l.counters.Some? then Some(l.counters.value.epoch) else None
  }

  predicate Reschedulable(l: Local) {
    l.lastDur > 0 && l.port != 0
  }

  /** rescheduleSTS, first lock section: the connection closed, so push the expiry out. */
  function BeginReschedule(l: Local, now: int): Local {
    if Reschedulable(l) then l.(until := At(now + l.lastDur)) else l
  }

  /** Does rescheduleSTS go on to the store, and with which expected revision and expiry? */
  function RescheduleCall(l: Local, now: int): Option<(nat, int)> {
    if Reschedulable(l) && !(l.dirty && l.dirtyFull) && l.counters.Some?
    then Some((l.counters.value.revision, now + l.lastDur)) else None
  }

  datatype Outcome = WriteFailed | Refused | Rescheduled(revision: nat)

  /** rescheduleSTS, second lock section. */
  function FinishReschedule(l: Local, base: Local, outcome: Outcome): Local {
    match outcome
    case Rescheduled(revision) =>
      l.(counters := Some(Counters(revision, if l.counters.Some? then l.counters.value.epoch else 0)),
         dirty := false, dirtyFull := false, dirtyBase := None)
    case _ => l.(dirty := true, dirtyFull := false, dirtyBase := KnownEpoch(base))
  }

  /** Run: an insecure CAP LS advertised a secure port. */
  function AdoptUpgrade(l: Local, port: int): Local {
    l.(port := port, until := Unset, lastDur := 0, session := true)
  }

  /** A successful load never leaves a stored, unexpired policy unenforced, and it dials plaintext only
      when the store has nothing active and no local policy was worth keeping. */
  lemma LoadFailsClosed(l: Local, r: Record, now: int)
    requires ValidRecord(r)
    ensures StoreActive(r, now) ==> DialsSecure(Load(l, r, now), false, now)
    ensures DialsSecure(Load(l, r, now), false, now) <==>
            StoreActive(r, now) || Retains(l, r, now) || (l.session && LocalActive(l, now))
  {
  }

  /** The manager's STS fields, updated in place by each lock section. */
  class StsManager {
    var stsPort: int
    var stsUntil: Expiry
    var stsLastDur: int
    var stsCounters: Option<Counters>
    var stsSession: bool
    var stsDirty: bool
    var stsDirtyFull: bool
    var stsDirtyBase: Option<nat>

    ghost function View(): Local
      reads this
    {
      Local(stsPort, stsUntil, stsLastDur, stsCounters, stsSession, stsDirty, stsDirtyFull, stsDirtyBase)
    }

    constructor ()
      ensures View() == FRESH
    {
      stsPort, stsUntil, stsLastDur := 0, Unset, 0;
      stsCounters := None;
      stsSession := false;
      stsDirty, stsDirtyFull, stsDirtyBase := false, false, None;
    }

    method ResolveDirty(r: Record, storeActive: bool, localActive: bool) returns (retained: bool)
      modifies this
      ensures var l := old(View());
              retained == (!NewerShared(l, r) && localActive &&
                           (l.dirtyFull || !storeActive || (l.until.At? && l.until.time > r.until)))
      ensures View() == if retained
                        then old(View()).(counters := Seen(r), dirtyBase := Some(r.epoch))
                        else old(View()).(dirty := false, dirtyFull := false, dirtyBase := None)
    {
      var newerShared := stsDirtyBase.Some? && r.epoch != stsDirtyBase.value;
      if !newerShared && localActive {
        if stsDirtyFull || !storeActive || (stsUntil.At? && stsUntil.time > r.until) {
          stsCounters := Some(Counters(r.revision, r.epoch));
          stsDirtyBase := Some(r.epoch);
          return true;
        }
      }
      stsDirty := false;
      stsDirtyFull := false;
      stsDirtyBase := None;
      return false;
    }

    method LoadSts(r: Record, now: int)
      modifies this
      ensures View() == Load(old(View()), r, now)
    {
      var storeActive := r.present && now < r.until;
      var localActive := stsPort > 0 && (stsUntil.Unset? || now < stsUntil.time);
      if stsDirty {
        var retained := ResolveDirty(r, storeActive, localActive);
        if retained { return; }
      }
      stsCounters := Some(Counters(r.revision, r.epoch));
      if storeActive {
        stsPort, stsUntil, stsLastDur := r.port, At(r.until), r.duration;
        stsSession := false;
        return;
      }
      if !stsSession {
        stsPort, stsUntil, stsLastDur := 0, Unset, 0;
      }
    }

    method EffectiveAddr(tlsConfigured: bool, configuredPort: int, now: int) returns (port: int, secure: bool)
      ensures secure == DialsSecure(View(), tlsConfigured, now)
      ensures port == if secure && !tlsConfigured then View().port else configuredPort
    {
      if tlsConfigured { return configuredPort, true; }
      if stsPort > 0 && (stsUntil.Unset? || now < stsUntil.time) {
        return stsPort, true;
      }
      return configuredPort, false;
    }

    method ApplyBegin(port: int, d: nat, now: int)
      modifies this
      ensures View() == BeginApply(old(View()), port, d, now)
    {
      if d == 0 {
        stsPort, stsUntil, stsLastDur := 0, Unset, 0;
      } else {
        stsPort, stsUntil, stsLastDur := port, At(now + d), d;
      }
      stsSession := false;
    }

    method ApplyFinish(ghost base: Local, baseCounters: Option<Counters>, d: nat, written: Option<Counters>)
      requires baseCounters == base.counters
      modifies this
      ensures View() == FinishApply(old(View()), base, d, written)
    {
      if d == 0 {
        if written.Some? { stsCounters := written; }
        stsDirty, stsDirtyFull, stsDirtyBase := false, false, None;
        return;
      }
      if written.Some? {
        stsCounters := written;
        stsDirty, stsDirtyFull, stsDirtyBase := false, false, None;
      } else {
        stsCounters := baseCounters;
        stsDirty, stsDirtyFull := true, true;
        stsDirtyBase := if baseCounters.Some? then Some(baseCounters.value.epoch) else None;
      }
    }

    method RescheduleBegin(now: int) returns (call: Option<(nat, int)>)
      modifies this
      ensures View() == BeginReschedule(old(View()), now)
      ensures call == RescheduleCall(old(View()), now)
    {
      if stsLastDur <= 0 || stsPort == 0 { return None; }
      var until := now + stsLastDur;
      stsUntil := At(until);
      if stsDirty && stsDirtyFull { return None; }
      if stsCounters.None? { return None; }
      return Some((stsCounters.value.revision, until));
    }

    method RescheduleFinish(ghost base: Local, baseEpoch: Option<nat>, outcome: Outcome)
      requires baseEpoch == KnownEpoch(base)
      modifies this
      ensures View() == FinishReschedule(old(View()), base, outcome)
    {
      if outcome.Rescheduled? {
        stsCounters := Some(Counters(outcome.revision, if stsCounters.Some? then stsCounters.value.epoch else 0));
        stsDirty, stsDirtyFull, stsDirtyBase := false, false, None;
      } else {
        stsDirty, stsDirtyFull, stsDirtyBase := true, false, baseEpoch;
      }
    }

    method Upgrade(port: int)
      modifies this
      ensures View() == AdoptUpgrade(old(View()), port)
    {
      stsPort, stsUntil, stsLastDur := port, Unset, 0;
      stsSession := true;
    }
  }
}
