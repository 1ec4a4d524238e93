/** Laws of the roster over every sequence of server messages: counts, keys and the byte ceiling. */
module RosterLaws {
  import opened Wrappers
  import opened Sums
  import opened Casemap
  import opened Isupport
  import opened RosterModel

  // ---- The invariant -----------------------------------------------------------------------------------

  ghost predicate Keyed(cm: CaseMapping, mp: Members) {
    forall k :: k in mp ==> k == Fold(cm, mp[k].nick)
  }

  ghost predicate ChannelKeyed(cm: CaseMapping, ck: string, c: Channel) {
    ck == Fold(cm, c.name) && Keyed(cm, c.members) && Keyed(cm, Pending(c))
  }

  ghost predicate AllKeyed(cm: CaseMapping, s: State) {
    forall ck :: ck in s ==> ChannelKeyed(cm, ck, s[ck])
  }

  /** Channels and held members are bounded, and every key is the fold of the name it stands for. */
  ghost predicate Inv(env: Env, s: State) {
    |s| <= env.limits.channels && TotalMembers(s) <= env.limits.members && AllKeyed(env.cm, s)
  }

  // ---- One map, one operation ----------------------------------------------------------------------------

  /** Rekeying uses the fold of the new nick as its key. */
  predicate KeyedOp(cm: CaseMapping, op: Op) {
    ValidOp(op) && (op.Rekey? ==> op.to == Fold(cm, op.nick))
  }

  lemma OpKeyed(cm: CaseMapping, mp: Members, op: Op, over: bool)
    requires KeyedOp(cm, op) && Keyed(cm, mp)
    ensures Keyed(cm, OpIn(mp, op, over))
  {
  }

  lemma OpCount(mp: Members, op: Op, over: bool)
    requires ValidOp(op)
    ensures |OpIn(mp, op, over)| <= |mp|
  {
    if op.key in mp {
      var less := mp - {op.key};
      assert mp.Keys == less.Keys + {op.key};
      assert |less.Keys| == |mp.Keys| - 1;
      if op.Rekey? {
        assert less[op.to := mp[op.key].(nick := op.nick)].Keys == less.Keys + {op.to};
      }
    }
  }

  /** Exact effect of an operation on a map's bytes. */
  lemma OpBytes(mp: Members, op: Op, over: bool)
    requires ValidOp(op)
    ensures over || op.Drop? || op.Revoke? ==> Sum(OpIn(mp, op, over), MemberBytes) <= Sum(mp, MemberBytes)
    ensures op.Grant? ==> Sum(OpIn(mp, op, over), MemberBytes) <= Sum(mp, MemberBytes) + |op.symbol|
  {
    if op.key in mp {
      var m := mp[op.key];
      SumRemoved(mp, MemberBytes, op.key);
      match op
      case Drop(_) =>
      case Rekey(key, to, nick) =>
        SumUpdated(mp - {key}, MemberBytes, to, m.(nick := nick));
      case Revise(key, update) => SumUpdated(mp, MemberBytes, key, Revised(update, m));
      case Grant(key, symbol, rank) => SumUpdated(mp, MemberBytes, key, m.(prefix := AddPrefix(rank, m.prefix, symbol)));
      case Revoke(key, symbol) => SumUpdated(mp, MemberBytes, key, m.(prefix := RemoveAll(m.prefix, symbol)));
    }
  }

  lemma OnBothLaws(cm: CaseMapping, ck: string, c: Channel, op: Op, over: bool)
    requires KeyedOp(cm, op)
    ensures ChannelKeyed(cm, ck, c) ==> ChannelKeyed(cm, ck, OnBoth(c, op, over))
    ensures Held(ck, OnBoth(c, op, over)) <= Held(ck, c)
    ensures over || op.Drop? || op.Revoke? ==> Weight(ck, OnBoth(c, op, over)) <= Weight(ck, c)
    ensures op.Grant? ==> Weight(ck, OnBoth(c, op, over)) <= Weight(ck, c) + 2 * |op.symbol|
  {
    OpCount(c.members, op, over);
    OpBytes(c.members, op, over);
    if c.pending.Some? {
      OpCount(c.pending.value, op, over);
      OpBytes(c.pending.value, op, over);
    }
    if ChannelKeyed(cm, ck, c) {
      OpKeyed(cm, c.members, op, over);
      OpKeyed(cm, Pending(c), op, over);
    }
  }

  // ---- Whole-state steps -------------------------------------------------------------------------------------

  lemma EverywhereLaws(env: Env, s: State, op: Op)
    requires KeyedOp(env.cm, op)
    ensures Inv(env, s) ==> Inv(env, Everywhere(env, s, op))
    ensures Over(env, s) || op.Drop? ==> TotalBytes(Everywhere(env, s, op)) <= TotalBytes(s)
  {
    var t := Everywhere(env, s, op);
    assert t.Keys == s.Keys;
    assert |t| == |t.Keys| == |s.Keys| == |s|;
    forall k | k in s
      ensures Held(k, t[k]) <= Held(k, s[k])
      ensures ChannelKeyed(env.cm, k, s[k]) ==> ChannelKeyed(env.cm, k, t[k])
      ensures Over(env, s) || op.Drop? ==> Weight(k, t[k]) <= Weight(k, s[k])
    {
      OnBothLaws(env.cm, k, s[k], op, Over(env, s));
    }
    SumPointwise(t, s, Held);
    if Over(env, s) || op.Drop? { SumPointwise(t, s, Weight); }
  }

  /** Replacing one channel: how the totals move. */
  lemma Replaced(env: Env, s: State, ck: string, c: Channel)
    ensures ck in s ==> TotalBytes(s[ck := c]) == TotalBytes(s) - Weight(ck, s[ck]) + Weight(ck, c)
    ensures ck in s ==> TotalMembers(s[ck := c]) == TotalMembers(s) - Held(ck, s[ck]) + Held(ck, c)
    ensures ck !in s ==> TotalBytes(s[ck := c]) == TotalBytes(s) + Weight(ck, c)
    ensures ck !in s ==> TotalMembers(s[ck := c]) == TotalMembers(s) + Held(ck, c)
    ensures ck in s ==> |s[ck := c]| == |s|
    ensures AllKeyed(env.cm, s) && ChannelKeyed(env.cm, ck, c) ==> AllKeyed(env.cm, s[ck := c])
  {
    SumUpdated(s, Weight, ck, c);
    SumUpdated(s, Held, ck, c);
    if ck in s { assert s[ck := c].Keys == s.Keys; }
  }

  lemma InChannelLaws(env: Env, s: State, ck: string, op: Op)
    requires KeyedOp(env.cm, op) && ck in s
    ensures Inv(env, s) ==> Inv(env, InChannel(env, s, ck, op))
    ensures Over(env, s) || op.Revoke? ==> TotalBytes(InChannel(env, s, ck, op)) <= TotalBytes(s)
    ensures op.Grant? ==> TotalBytes(InChannel(env, s, ck, op)) <= TotalBytes(s) + 2 * |op.symbol|
  {
    var c := OnBoth(s[ck], op, Over(env, s));
    OnBothLaws(env.cm, ck, s[ck], op, Over(env, s));
    Replaced(env, s, ck, c);
  }

  /** Replacing a channel by one that is well keyed and fits the member budget keeps the invariant. */
  lemma ReplacedInv(env: Env, s: State, ck: string, c: Channel)
    requires Inv(env, s) && ck in s && ChannelKeyed(env.cm, ck, c)
    requires TotalMembers(s) - Held(ck, s[ck]) + Held(ck, c) <= env.limits.members
    ensures Inv(env, s[ck := c])
  {
    Replaced(env, s, ck, c);
  }

  lemma LeaveLaws(env: Env, s: State, ck: string, key: string, ours: bool)
    ensures Inv(env, s) ==> Inv(env, Leave(s, ck, key, ours))
    ensures TotalBytes(Leave(s, ck, key, ours)) <= TotalBytes(s)
  {
    if ours {
      SumRemoved(s, Weight, ck);
      SumRemoved(s, Held, ck);
      if ck in s {
        SumNonNegative(s[ck].members, MemberBytes);
        SumNonNegative(Pending(s[ck]), MemberBytes);
      }
      assert (s - {ck}).Keys == s.Keys - {ck};
    } else if ck in s {
      OnBothLaws(env.cm, ck, s[ck], Drop(key), false);
      Replaced(env, s, ck, OnBoth(s[ck], Drop(key), false));
    }
  }

  lemma {:induction false} LeaveAllLaws(env: Env, ourNick: string, s: State, pairs: seq<(string, string)>)
    ensures Inv(env, s) ==> Inv(env, LeaveAll(env, ourNick, s, pairs))
    ensures TotalBytes(LeaveAll(env, ourNick, s, pairs)) <= TotalBytes(s)
    decreases |pairs|
  {
    if pairs != [] {
      var ck, key, ours := Key(env, pairs[0].0), Key(env, pairs[0].1), Ours(env, ourNick, pairs[0].1);
      LeaveLaws(env, s, ck, key, ours);
      LeaveAllLaws(env, ourNick, Leave(s, ck, key, ours), pairs[1..]);
    }
  }

  lemma {:induction false} AddNamesCount(env: Env, mp: Members, listed: seq<Member>, budget: int, bytesLeft: int)
    ensures |AddNames(env, mp, listed, budget, bytesLeft)| <= |mp| + (if budget > 0 then budget else 0)
    decreases |listed|
  {
    if !(listed == [] || |mp| >= env.limits.channelMembers || budget <= 0 || bytesLeft <= 0) {
      var m, k := listed[0], Fold(env.cm, listed[0].nick);
      assert mp[k := m].Keys == mp.Keys + {k};
      AddNamesCount(env, mp[k := m], listed[1..], if k in mp then budget else budget - 1, bytesLeft - Delta(mp, k, m));
    }
  }

  lemma {:induction false} AddNamesKeyed(env: Env, mp: Members, listed: seq<Member>, budget: int, bytesLeft: int)
    requires Keyed(env.cm, mp)
    ensures Keyed(env.cm, AddNames(env, mp, listed, budget, bytesLeft))
    decreases |listed|
  {
    if !(listed == [] || |mp| >= env.limits.channelMembers || budget <= 0 || bytesLeft <= 0) {
      var m, k := listed[0], Fold(env.cm, listed[0].nick);
      AddNamesKeyed(env, mp[k := m], listed[1..], if k in mp then budget else budget - 1, bytesLeft - Delta(mp, k, m));
    }
  }

  lemma NamesInv(env: Env, s: State, ck: string, listed: seq<Member>)
    requires Inv(env, s)
    ensures Inv(env, OnNames(env, s, ck, listed))
  {
    if ck in s {
      var budget, left := env.limits.members - TotalMembers(s), env.limits.bytes - TotalBytes(s);
      AddNamesCount(env, Pending(s[ck]), listed, budget, left);
      AddNamesKeyed(env, Pending(s[ck]), listed, budget, left);
      var c := s[ck].(pending := Some(AddNames(env, Pending(s[ck]), listed, budget, left)));
      ReplacedInv(env, s, ck, c);
    }
  }

  lemma NamesOverCeiling(env: Env, s: State, ck: string, listed: seq<Member>)
    requires Over(env, s)
    ensures TotalBytes(OnNames(env, s, ck, listed)) == TotalBytes(s)
  {
    if ck in s {
      var c := s[ck].(pending := Some(Pending(s[ck])));
      assert OnNames(env, s, ck, listed) == s[ck := c];
      Replaced(env, s, ck, c);
    }
  }

  /** Merging keeps at most what the two entries held together. */
  lemma {:induction false} MergedBytes(pending: Members, members: Members)
    ensures Sum(Merged(pending, members), MemberBytes) <= Sum(pending, MemberBytes) + Sum(members, MemberBytes)
    decreases |pending|
  {
    SumNonNegative(members, MemberBytes);
    if pending == map[] {
      assert Merged(pending, members) == map[];
    } else {
      var k :| k in pending;
      MergedBytes(pending - {k}, members - {k});
      SumRemoved(pending, MemberBytes, k);
      SumRemoved(members, MemberBytes, k);
      SumRemoved(Merged(pending, members), MemberBytes, k);
      assert Merged(pending, members) - {k} == Merged(pending - {k}, members - {k});
    }
  }

  lemma MergedCount(pending: Members, members: Members)
    ensures |Merged(pending, members)| == |pending|
  {
    assert Merged(pending, members).Keys == pending.Keys;
  }

  lemma SwapInv(env: Env, s: State, ck: string)
    requires Inv(env, s)
    ensures Inv(env, OnNamesEnd(s, ck))
  {
    if ck in s && s[ck].pending.Some? {
      var merged := Merged(s[ck].pending.value, s[ck].members);
      MergedCount(s[ck].pending.value, s[ck].members);
      assert Keyed(env.cm, merged);
      ReplacedInv(env, s, ck, s[ck].(members := merged, pending := None));
    }
  }

  /** The 366 swap never increases the roster's bytes, at any total, although old account and host data
      are merged into the new snapshot. */
  lemma SwapNeverIncreases(env: Env, s: State, ck: string)
    ensures TotalBytes(OnNamesEnd(s, ck)) <= TotalBytes(s)
  {
    if ck in s && s[ck].pending.Some? {
      var merged := Merged(s[ck].pending.value, s[ck].members);
      MergedBytes(s[ck].pending.value, s[ck].members);
      Replaced(env, s, ck, s[ck].(members := merged, pending := None));
    }
  }

  lemma TopicLaws(env: Env, s: State, ck: string, topic: string)
    ensures Inv(env, s) ==> Inv(env, OnTopic(env, s, ck, topic))
    ensures Over(env, s) ==> TotalBytes(OnTopic(env, s, ck, topic)) <= TotalBytes(s)
  {
    if ck in s { Replaced(env, s, ck, s[ck].(topic := topic)); }
  }

  lemma Stored(mp: Members, k: string, m: Member)
    ensures |mp[k := m]| == if k in mp then |mp| else |mp| + 1
    ensures Sum(mp[k := m], MemberBytes) == Sum(mp, MemberBytes) + Delta(mp, k, m)
  {
    assert mp[k := m].Keys == mp.Keys + {k};
    SumUpdated(mp, MemberBytes, k, m);
  }

  lemma AdmitInv(env: Env, s: State, ck: string, m: Member)
    requires ck in s && Inv(env, s)
    ensures Inv(env, Admit(env, s, ck, m))
  {
    var k, c := Fold(env.cm, m.nick), s[ck];
    var c1 := c.(members := c.members[k := m]);
    Stored(c.members, k, m);
    Replaced(env, s, ck, c1);
    if k in c.members || TotalMembers(s) < env.limits.members {
      ReplacedInv(env, s, ck, c1);
      var s1 := s[ck := c1];
      if c.pending.Some? && (k in c.pending.value || TotalMembers(s1) < env.limits.members) {
        Stored(c.pending.value, k, m);
        ReplacedInv(env, s1, ck, c1.(pending := Some(c.pending.value[k := m])));
      }
    }
  }

  /** The member is in both maps, the live entry would not grow, and the snapshot's grows by more than it
      shrinks.  Only the live entry is measured before both are rewritten. */
  predicate RewriteGrows(c: Channel, k: string, m: Member) {
    && k in c.members && k in Pending(c) && MemberBytes(k, m) <= MemberBytes(k, c.members[k])
    && Delta(c.members, k, m) + Delta(Pending(c), k, m) > 0
  }

  lemma AdmitGrowsIff(env: Env, s: State, ck: string, m: Member)
    requires ck in s && Over(env, s)
    ensures TotalBytes(Admit(env, s, ck, m)) > TotalBytes(s) <==> RewriteGrows(s[ck], Fold(env.cm, m.nick), m)
  {
    var k, c := Fold(env.cm, m.nick), s[ck];
    var joined := c.(members := c.members[k := m]);
    Stored(c.members, k, m);
    Replaced(env, s, ck, joined);
    if k in Pending(c) {
      Stored(c.pending.value, k, m);
      Replaced(env, s[ck := joined], ck, joined.(pending := Some(c.pending.value[k := m])));
    }
  }

  lemma OpenedLaws(env: Env, s: State, name: string, ours: bool)
    ensures Inv(env, s) ==> Inv(env, Opened(env, s, name, ours))
    ensures TotalBytes(Opened(env, s, name, ours)) == TotalBytes(s)
  {
    var ck, c := Fold(env.cm, name), Channel(name, "", map[], None);
    Replaced(env, s, ck, c);
    if ck !in s { assert s[ck := c].Keys == s.Keys + {ck}; }
  }

  lemma JoinInv(env: Env, s: State, name: string, m: Member, ours: bool)
    requires Inv(env, s)
    ensures Inv(env, OnJoin(env, s, name, m, ours))
  {
    OpenedLaws(env, s, name, ours);
    var s1 := Opened(env, s, name, ours);
    if Fold(env.cm, name) in s1 { AdmitInv(env, s1, Fold(env.cm, name), m); }
  }

  predicate JoinGrows(env: Env, s: State, name: string, m: Member) {
    Fold(env.cm, name) in s && RewriteGrows(s[Fold(env.cm, name)], Fold(env.cm, m.nick), m)
  }

  /** Exactly when a JOIN at or over the ceiling grows the roster. */
  lemma JoinGrowsIff(env: Env, s: State, name: string, m: Member, ours: bool)
    requires Over(env, s)
    ensures TotalBytes(OnJoin(env, s, name, m, ours)) > TotalBytes(s) <==> JoinGrows(env, s, name, m)
  {
    OpenedLaws(env, s, name, ours);
    var s1 := Opened(env, s, name, ours);
    if Fold(env.cm, name) in s1 { AdmitGrowsIff(env, s1, Fold(env.cm, name), m); }
  }

  /** One member, whose live entry knows a host that the in-flight snapshot does not. */
  const REJOIN_STATE: State :=
    map["#c" := Channel("#c", "", map["b" := Member("b", "", false, "", false, "", "h.ex")],
                        Some(map["b" := Member("b", "", false, "", false, "", "")]))]

  /** A JOIN can pass the ceiling: a host shorter than the live entry's is checked against that entry alone,
      then written to both maps. */
  lemma RejoinCanPassCeiling(env: Env, ourNick: string)
    requires WellFormed(env.modes) && env.limits.bytes == TotalBytes(REJOIN_STATE)
    ensures TotalBytes(React(env, ourNick, REJOIN_STATE, Join("#c", "b", "", "h.x", ""))) > TotalBytes(REJOIN_STATE)
  {
    var msg := Join("#c", "b", "", "h.x", "");
    var s := REJOIN_STATE;
    assert FoldChar(env.cm, '#') == '#' && FoldChar(env.cm, 'c') == 'c' && FoldChar(env.cm, 'b') == 'b';
    assert Fold(env.cm, "#c") == "#c" && Fold(env.cm, "b") == "b";
    JoinGrowsIff(env, s, "#c", JoinMember(msg), Ours(env, ourNick, "b"));
  }

  // ---- MODE lines -----------------------------------------------------------------------------------------------

  lemma {:induction false} ModeInv(env: Env, s: State, ck: string, ops: seq<Op>)
    requires StatusOps(ops) && Inv(env, s)
    ensures Inv(env, OnMode(env, s, ck, ops))
    decreases |ops|
  {
    if ck in s && ops != [] {
      InChannelLaws(env, s, ck, ops[0]);
      ModeInv(env, InChannel(env, s, ck, ops[0]), ck, ops[1..]);
    }
  }

  /** A MODE line can pass the ceiling, but by less than one letter granted in both maps of a channel. */
  lemma {:induction false} ModeOvershootBounded(env: Env, s: State, ck: string, ops: seq<Op>, width: nat)
    requires StatusOps(ops)
    requires forall op :: op in ops ==> |op.symbol| <= width
    ensures TotalBytes(OnMode(env, s, ck, ops)) <= Max(TotalBytes(s), env.limits.bytes - 1 + 2 * width)
    decreases |ops|
  {
    if ck in s && ops != [] {
      InChannelLaws(env, s, ck, ops[0]);
      ModeOvershootBounded(env, InChannel(env, s, ck, ops[0]), ck, ops[1..], width);
    }
  }

  lemma GrantOverCeiling(env: Env, s: State, ck: string, op: Op)
    requires op.Grant? && ck in s && Over(env, s)
    ensures InChannel(env, s, ck, op) == s
  {
    var c := s[ck];
    assert OpIn(c.members, op, true) == c.members;
    if c.pending.Some? { assert OpIn(c.pending.value, op, true) == c.pending.value; }
    assert OnBoth(c, op, true) == c;
  }

  /** Over the ceiling a MODE line without a revocation changes nothing. */
  lemma {:induction false} GrantsRefusedOverCeiling(env: Env, s: State, ck: string, ops: seq<Op>)
    requires StatusOps(ops) && Over(env, s)
    requires forall op :: op in ops ==> op.Grant?
    ensures OnMode(env, s, ck, ops) == s
    decreases |ops|
  {
    if ck in s && ops != [] {
      GrantOverCeiling(env, s, ck, ops[0]);
      GrantsRefusedOverCeiling(env, s, ck, ops[1..]);
    }
  }

  /** Exactly when one status letter grows the roster: it is a grant, the total is below the ceiling, and
      some map of the channel holds the member without that status. */
  lemma StatusLetterGrowsIff(env: Env, s: State, ck: string, op: Op)
    requires StatusOps([op]) && ck in s
    ensures TotalBytes(InChannel(env, s, ck, op)) > TotalBytes(s) <==>
            op.Grant? && !Over(env, s) && (Lacks(s[ck].members, op) || Lacks(Pending(s[ck]), op))
  {
    assert op in [op];
    InChannelLaws(env, s, ck, op);
    if op.Grant? && !Over(env, s) {
      GrantGrows(s[ck].members, op);
      GrantGrows(Pending(s[ck]), op);
      Replaced(env, s, ck, OnBoth(s[ck], op, false));
    }
  }

  predicate Lacks(mp: Members, op: Op)
    requires op.Grant?
  {
    op.key in mp && Index(mp[op.key].prefix, op.symbol) < 0
  }

  lemma GrantGrows(mp: Members, op: Op)
    requires op.Grant? && op.symbol != ""
    ensures Sum(OpIn(mp, op, false), MemberBytes) == Sum(mp, MemberBytes) + if Lacks(mp, op) then |op.symbol| else 0
  {
    if op.key in mp {
      var m := mp[op.key];
      SumUpdated(mp, MemberBytes, op.key, m.(prefix := AddPrefix(op.rank, m.prefix, op.symbol)));
    }
  }

  /** Ranks of a status string's symbols; -1 for a symbol that is not a status. */
  function Positions(rank: string, s: string): seq<int> {
    seq(|s|, i requires 0 <= i < |s| => IndexByte(rank, s[i]))
  }

  predicate Increasing(p: seq<int>) {
    forall i, j :: 0 <= i < j < |p| ==> p[i] < p[j]
  }

  predicate NonNegative(p: seq<int>) {
    forall i :: 0 <= i < |p| ==> p[i] >= 0
  }

  /** Status prefixes listed highest rank first, without repeats. */
  predicate Ranked(rank: string, s: string) {
    Increasing(Positions(rank, s)) && NonNegative(Positions(rank, s))
  }

  lemma {:induction false} IndexOfByte(s: string, c: char)
    ensures Index(s, [c]) == IndexByte(s, c)
  {
    if s != "" { IndexOfByte(s[1..], c); }
  }

  lemma PositionsAppend(rank: string, a: string, b: string)
    ensures Positions(rank, a + b) == Positions(rank, a) + Positions(rank, b)
  {
  }

  lemma InsertedIncreasing(p: seq<int>, v: int, at: nat)
    requires Increasing(p) && at <= |p| && v >= 0 && NonNegative(p)
    requires forall k :: 0 <= k < at ==> p[k] < v
    requires at < |p| ==> v < p[at]
    ensures Increasing(p[..at] + [v] + p[at..]) && NonNegative(p[..at] + [v] + p[at..])
  {
  }

  lemma PositionsInserted(rank: string, current: string, c: char, at: nat)
    requires at <= |current|
    ensures Positions(rank, current[..at] + [c] + current[at..]) ==
            Positions(rank, current)[..at] + [IndexByte(rank, c)] + Positions(rank, current)[at..]
  {
    var a, b := current[..at], current[at..];
    PositionsAppend(rank, a, b);
    PositionsAppend(rank, a + [c], b);
    PositionsAppend(rank, a, [c]);
    assert a + b == current;
  }

  lemma DistinctRanks(rank: string, c: char, d: char)
    requires c in rank && c != d
    ensures IndexByte(rank, c) != IndexByte(rank, d)
  {
  }

  lemma InsertKeepsRank(rank: string, current: string, c: char, at: nat)
    requires Ranked(rank, current) && c in rank && c !in current && at <= |current|
    requires forall k :: 0 <= k < at ==> IndexByte(rank, current[k]) <= IndexByte(rank, c)
    requires at < |current| ==> IndexByte(rank, c) < IndexByte(rank, current[at])
    ensures Ranked(rank, current[..at] + [c] + current[at..])
  {
    var p := Positions(rank, current);
    forall k | 0 <= k < at ensures p[k] < IndexByte(rank, c) {
      DistinctRanks(rank, c, current[k]);
    }
    PositionsInserted(rank, current, c, at);
    InsertedIncreasing(p, IndexByte(rank, c), at);
  }

  /** Granting a known status keeps the prefixes ranked and includes it, whatever was there before. */
  lemma AddPrefixKeepsRank(rank: string, current: string, c: char)
    requires Ranked(rank, current) && c in rank
    ensures Ranked(rank, AddPrefix(rank, current, [c]))
    ensures c in AddPrefix(rank, current, [c])
  {
    IndexOfByte(rank, c);
    IndexOfByte(current, c);
    if c !in current {
      var at := InsertAt(rank, current, IndexByte(rank, c), 0);
      InsertKeepsRank(rank, current, c, at);
      assert (current[..at] + [c] + current[at..])[at] == c;
    }
  }

  // ---- Results ----------------------------------------------------------------------------------------------------

  /** QUIT, NICK and the nick-level facts. */
  lemma FanOutReaction(env: Env, ourNick: string, s: State, msg: Message)
    requires WellFormed(env.modes) && (msg.Quit? || msg.Nick? || msg.Fact?)
    ensures Inv(env, s) ==> Inv(env, React(env, ourNick, s, msg))
    ensures Over(env, s) ==> TotalBytes(React(env, ourNick, s, msg)) <= TotalBytes(s)
  {
    match msg
    case Quit(sender) => EverywhereLaws(env, s, Drop(Key(env, sender)));
    case Nick(sender, to) => EverywhereLaws(env, s, Rekey(Key(env, sender), Key(env, to), Clamp(to)));
    case Fact(nick, update) => EverywhereLaws(env, s, Revise(Key(env, nick), ClampUpdate(update)));
  }

  lemma ReactKeepsInv(env: Env, ourNick: string, s: State, msg: Message)
    requires WellFormed(env.modes) && Inv(env, s)
    ensures Inv(env, React(env, ourNick, s, msg))
  {
    match msg
    case Names(channel, entries) =>
      NamesInv(env, s, Key(env, channel), NamesMembers(env.modes.prefixSymbols, entries));
    case NamesEnd(channel) => SwapInv(env, s, Key(env, channel));
    case Topic(channel, topic) => TopicLaws(env, s, Key(env, channel), Clamp(topic));
    case Join(channel, sender, _, _, _) =>
      JoinInv(env, s, Clamp(channel), JoinMember(msg), Ours(env, ourNick, sender));
    case Part(channels, sender) => LeaveAllLaws(env, ourNick, s, PartPairs(channels, sender));
    case Kick(channels, victims) => LeaveAllLaws(env, ourNick, s, KickPairs(channels, victims));
    case Quit(_) => FanOutReaction(env, ourNick, s, msg);
    case Nick(_, _) => FanOutReaction(env, ourNick, s, msg);
    case Fact(_, _) => FanOutReaction(env, ourNick, s, msg);
    case Mode(channel, letters, args) =>
      ModeInv(env, s, Key(env, channel), ModeOps(env, letters, true, args, 0));
  }

  /** A message together with the ISUPPORT modes and our own nick when it arrived. */
  datatype Arrival = Arrival(modes: Modes, ourNick: string, msg: Message)

  ghost function ReactAll(env: Env, s: State, arrivals: seq<Arrival>): State
    requires forall a :: a in arrivals ==> WellFormed(a.modes)
    decreases |arrivals|
  {
    if arrivals == [] then s
    else
      var a := arrivals[0];
      ReactAll(env, React(env.(modes := a.modes), a.ourNick, s, a.msg), arrivals[1..])
  }

  lemma {:induction false} RosterStaysBounded(env: Env, s: State, arrivals: seq<Arrival>)
    requires forall a :: a in arrivals ==> WellFormed(a.modes)
    requires Inv(env, s)
    ensures Inv(env, ReactAll(env, s, arrivals))
    decreases |arrivals|
  {
    if arrivals != [] {
      var a := arrivals[0];
      var e := env.(modes := a.modes);
      ReactKeepsInv(e, a.ourNick, s, a.msg);
      RosterStaysBounded(env, React(e, a.ourNick, s, a.msg), arrivals[1..]);
    }
  }

  /** For every sequence of server messages on a new connection: channels and held members stay within their limits
      and every key is the fold of its name, even as PREFIX, CHANMODES and our own nick change under way. */
  lemma RosterAlwaysBounded(env: Env, arrivals: seq<Arrival>)
    requires forall a :: a in arrivals ==> WellFormed(a.modes)
    ensures var s := ReactAll(env, map[], arrivals);
            |s| <= env.limits.channels && TotalMembers(s) <= env.limits.members && AllKeyed(env.cm, s)
  {
    RosterStaysBounded(env, map[], arrivals);
  }

  /** At or over the byte ceiling: a JOIN increases the total exactly when `JoinGrows`, and no other message
      than MODE ever does: not colliding renames, not fan-out updates, not topics, not NAMES bursts. */
  lemma GrowsOverCeilingIff(env: Env, ourNick: string, s: State, msg: Message)
    requires WellFormed(env.modes) && Over(env, s) && !msg.Mode?
    ensures TotalBytes(React(env, ourNick, s, msg)) > TotalBytes(s) <==>
            msg.Join? && JoinGrows(env, s, Clamp(msg.channel), JoinMember(msg))
  {
    match msg
    case Names(channel, entries) =>
      NamesOverCeiling(env, s, Key(env, channel), NamesMembers(env.modes.prefixSymbols, entries));
    case NamesEnd(channel) => SwapNeverIncreases(env, s, Key(env, channel));
    case Topic(channel, topic) => TopicLaws(env, s, Key(env, channel), Clamp(topic));
    case Join(channel, sender, _, _, _) =>
      JoinGrowsIff(env, s, Clamp(channel), JoinMember(msg), Ours(env, ourNick, sender));
    case Part(channels, sender) => LeaveAllLaws(env, ourNick, s, PartPairs(channels, sender));
    case Kick(channels, victims) => LeaveAllLaws(env, ourNick, s, KickPairs(channels, victims));
    case _ => FanOutReaction(env, ourNick, s, msg);
  }

  const CROSSING_STATE: State :=
    map["#c" := Channel("#c", "", map["a" := Member("a", "@", false, "", false, "", ""),
                                      "b" := Member("b", "", false, "", false, "", "")],
                        Some(map["b" := Member("b", "", false, "", false, "", "")]))]

  const DEFAULT_MODES := Modes("ov", "@+", ["b", "k", "l", "imnpst"])

  lemma CrossingOps(env: Env)
    requires env.modes == DEFAULT_MODES
    ensures ModeOps(env, "-o+v", true, ["a", "b"], 0) == [Revoke("a", "@"), Grant("b", "+", "@+")]
  {
    FirstAndLast();
    assert Fold(env.cm, "a") == "a" && Fold(env.cm, "b") == "b" by {
      assert FoldChar(env.cm, 'a') == 'a' && FoldChar(env.cm, 'b') == 'b';
    }
    calc {
      ModeOps(env, "-o+v", true, ["a", "b"], 0);
      { assert "-o+v"[1..] == "o+v"; }
      ModeOps(env, "o+v", false, ["a", "b"], 0);
      { assert "o+v"[1..] == "+v" && ["a", "b"][1..] == ["b"]; assert "ov"[0] == 'o'; }
      [Revoke("a", "@")] + ModeOps(env, "+v", false, ["b"], 1);
      { assert "+v"[1..] == "v"; }
      [Revoke("a", "@")] + ModeOps(env, "v", true, ["b"], 1);
      { assert "v"[1..] == "" && ["b"][1..] == []; assert "ov"[1] == 'v'; }
      [Revoke("a", "@")] + ([Grant("b", "+", "@+")] + ModeOps(env, "", true, [], 2));
    }
  }

  lemma FirstAndLast()
    ensures 'o' in "ov" && 'v' in "ov" && LastIndex("ov", 'o') == 0 && LastIndex("ov", 'v') == 1
  {
    assert "ov"[0] == 'o' && "ov"[1] == 'v';
    LastIs("ov", 0);
    LastIs("ov", 1);
  }

  lemma GrantInBoth(env: Env, s: State, ck: string, op: Op)
    requires op.Grant? && op.symbol != "" && ck in s && !Over(env, s)
    requires Lacks(s[ck].members, op) && Lacks(Pending(s[ck]), op)
    ensures TotalBytes(InChannel(env, s, ck, op)) == TotalBytes(s) + 2 * |op.symbol|
  {
    GrantGrows(s[ck].members, op);
    GrantGrows(Pending(s[ck]), op);
    Replaced(env, s, ck, OnBoth(s[ck], op, false));
  }

  lemma CrossingRevoke(env: Env)
    ensures var s1 := InChannel(env, CROSSING_STATE, "#c", Revoke("a", "@"));
            && TotalBytes(s1) == TotalBytes(CROSSING_STATE) - 1 && "#c" in s1
            && Lacks(s1["#c"].members, Grant("b", "+", "@+")) && Lacks(Pending(s1["#c"]), Grant("b", "+", "@+"))
  {
    var s, ck, off := CROSSING_STATE, "#c", Revoke("a", "@");
    var c := s[ck];
    assert RemoveAll("@", "@") == "" by { assert "@"[1..] == ""; }
    SumUpdated(c.members, MemberBytes, "a", c.members["a"].(prefix := ""));
    Replaced(env, s, ck, OnBoth(c, off, Over(env, s)));
    assert OnBoth(c, off, Over(env, s)).pending == c.pending;
  }

  lemma TwoLetters(env: Env, s: State, ck: string, a: Op, b: Op)
    requires StatusOps([a, b]) && ck in s && ValidOp(a) && ValidOp(b)
    ensures OnMode(env, s, ck, [a, b]) == InChannel(env, InChannel(env, s, ck, a), ck, b)
  {
    assert [a, b][1..] == [b] && [b][1..] == [];
    var s1 := InChannel(env, s, ck, a);
    assert OnMode(env, s1, ck, [b]) == OnMode(env, InChannel(env, s1, ck, b), ck, []);
  }

  lemma CrossingGrows(env: Env)
    requires env.limits.bytes == TotalBytes(CROSSING_STATE)
    ensures StatusOps([Revoke("a", "@"), Grant("b", "+", "@+")])
    ensures TotalBytes(OnMode(env, CROSSING_STATE, "#c", [Revoke("a", "@"), Grant("b", "+", "@+")])) ==
            TotalBytes(CROSSING_STATE) + 1
  {
    var off, on := Revoke("a", "@"), Grant("b", "+", "@+");
    CrossingRevoke(env);
    GrantInBoth(env, InChannel(env, CROSSING_STATE, "#c", off), "#c", on);
    TwoLetters(env, CROSSING_STATE, "#c", off, on);
  }

  lemma ModeReaction(env: Env, ourNick: string, s: State, channel: string, letters: string, args: seq<string>,
                     ck: string, ops: seq<Op>)
    requires WellFormed(env.modes) && ck == Key(env, channel) && ops == ModeOps(env, letters, true, args, 0)
    ensures React(env, ourNick, s, Mode(channel, letters, args)) == OnMode(env, s, ck, ops)
  {
  }

  /** The ceiling is not kept by every MODE line.  With the total exactly at the ceiling, "-o+v a b" first
      frees one byte, so the grant is admitted; its one over-budget check then covers both maps holding
      `b`, and the line ends one byte above where it started. */
  lemma ModeLineCanPassCeiling(env: Env, ourNick: string)
    requires env.cm == Rfc1459 && env.modes == DEFAULT_MODES && env.limits.bytes == TotalBytes(CROSSING_STATE)
    ensures TotalBytes(React(env, ourNick, CROSSING_STATE, Mode("#c", "-o+v", ["a", "b"]))) ==
            TotalBytes(CROSSING_STATE) + 1
  {
    var ops := [Revoke("a", "@"), Grant("b", "+", "@+")];
    assert ops == ModeOps(env, "-o+v", true, ["a", "b"], 0) by { CrossingOps(env); }
    assert "#c" == Key(env, "#c") by { assert FoldChar(env.cm, '#') == '#' && FoldChar(env.cm, 'c') == 'c'; }
    ModeReaction(env, ourNick, CROSSING_STATE, "#c", "-o+v", ["a", "b"], "#c", ops);
    CrossingGrows(env);
  }
}
