/** The roster as the read loop keeps it: channels updated in place with a running byte count, admission
    decisions taken from those running counts.  Every handler is proved to do what `RosterModel` says, where
    all sizes are recomputed from scratch. */
module Roster {
  import opened Wrappers
  import opened Sums
  import opened Casemap
  import opened Isupport
  import opened RosterModel

  /** A channel with its share of the byte budget, kept in step by Put, Del and SetTopic. */
  datatype ChannelState = ChannelState(ch: Channel, bytes: int)

  ghost predicate Accurate(st: ChannelState) {
    st.bytes == |st.ch.topic| + Sum(st.ch.members, MemberBytes) + Sum(Pending(st.ch), MemberBytes)
  }

  function ViewOf(chans: map<string, ChannelState>): State {
    map k | k in chans :: chans[k].ch
  }

  lemma ViewWithout(chans: map<string, ChannelState>, k: string)
    ensures ViewOf(chans - {k}) == ViewOf(chans) - {k}
  {
  }

  lemma ViewUpdated(chans: map<string, ChannelState>, k: string, st: ChannelState)
    ensures ViewOf(chans[k := st]) == ViewOf(chans)[k := st.ch]
  {
  }

  function Which(c: Channel, inPending: bool): Members
    requires inPending ==> c.pending.Some?
  {
    if inPending then c.pending.value else c.members
  }

  function WithMap(c: Channel, inPending: bool, mp: Members): Channel {
    if inPending then c.(pending := Some(mp)) else c.(members := mp)
  }

  /** put: store a member and move the running count by the difference. */
  function Put(st: ChannelState, inPending: bool, key: string, m: Member): (r: ChannelState)
    requires inPending ==> st.ch.pending.Some?
    ensures r.ch == WithMap(st.ch, inPending, Which(st.ch, inPending)[key := m])
    ensures r.bytes == st.bytes + Delta(Which(st.ch, inPending), key, m)
    ensures Accurate(st) ==> Accurate(r)
  {
    var mp := Which(st.ch, inPending);
    var delta := MemberBytes(key, m) - if key in mp then MemberBytes(key, mp[key]) else 0;
    SumUpdated(mp, MemberBytes, key, m);
    ChannelState(WithMap(st.ch, inPending, mp[key := m]), st.bytes + delta)
  }

  /** del: forget a member, if present, and its bytes. */
  function Del(st: ChannelState, inPending: bool, key: string): (r: ChannelState)
    requires inPending ==> st.ch.pending.Some?
    ensures r.ch == WithMap(st.ch, inPending, Which(st.ch, inPending) - {key})
    ensures Accurate(st) ==> Accurate(r)
  {
    var mp := Which(st.ch, inPending);
    SumRemoved(mp, MemberBytes, key);
    if key in mp then ChannelState(WithMap(st.ch, inPending, mp - {key}), st.bytes - MemberBytes(key, mp[key]))
    else
      assert mp - {key} == mp;
      st
  }

  /** One operation on one of the channel's maps, through put and del. */
  function Apply(st: ChannelState, inPending: bool, op: Op, over: bool): (r: ChannelState)
    requires ValidOp(op) && (inPending ==> st.ch.pending.Some?)
    ensures r.ch == WithMap(st.ch, inPending, OpIn(Which(st.ch, inPending), op, over))
    ensures Accurate(st) ==> Accurate(r)
  {
    var mp := Which(st.ch, inPending);
    if op.key !in mp then st
    else
      var m := mp[op.key];
      match op
      case Drop(key) => Del(st, inPending, key)
      case Rekey(key, to, nick) =>
        var renamed := m.(nick := nick);
        if over && MemberBytes(to, renamed) > MemberBytes(key, m) then st
        else Put(Del(st, inPending, key), inPending, to, renamed)
      case Revise(key, update) =>
        var nm := Revised(update, m);
        if over && MemberBytes(key, nm) > MemberBytes(key, m) then st else Put(st, inPending, key, nm)
      case Grant(key, symbol, rank) =>
        var np := AddPrefix(rank, m.prefix, symbol);
        if |np| > |m.prefix| && over then st else Put(st, inPending, key, m.(prefix := np))
      case Revoke(key, symbol) => Put(st, inPending, key, m.(prefix := RemoveAll(m.prefix, symbol)))
  }

  function ApplyBoth(st: ChannelState, op: Op, over: bool): (r: ChannelState)
    requires ValidOp(op)
    ensures r.ch == OnBoth(st.ch, op, over)
    ensures Accurate(st) ==> Accurate(r)
  {
    var st1 := Apply(st, false, op, over);
    if st1.ch.pending.Some? then Apply(st1, true, op, over) else st1
  }

  method SumMembers(mp: Members) returns (n: int)
    ensures n == Sum(mp, MemberBytes)
  {
    n := 0;
    var todo := mp;
    while todo != map[]
      invariant n + Sum(todo, MemberBytes) == Sum(mp, MemberBytes)
      decreases |todo|
    {
      var k :| k in todo;
      SumWithout(todo, MemberBytes, k);
      assert |todo - {k}| < |todo| by { assert (todo - {k}).Keys == todo.Keys - {k}; }
      n := n + MemberBytes(k, todo[k]);
      todo := todo - {k};
    }
  }

  /** recomputeBytes: rebuild the running count from scratch. */
  method Recompute(c: Channel) returns (st: ChannelState)
    ensures st.ch == c && Accurate(st)
  {
    var a := SumMembers(c.members);
    var b := SumMembers(Pending(c));
    st := ChannelState(c, |c.topic| + a + b);
  }

  /** The merge loop of namesEnd. */
  method MergeNames(pending: Members, members: Members) returns (mp: Members)
    ensures mp == Merged(pending, members)
  {
    mp := pending;
    var todo := pending.Keys;
    while todo != {}
      invariant todo <= pending.Keys && mp.Keys == pending.Keys
      invariant forall k :: k in todo ==> mp[k] == pending[k]
      invariant forall k :: k in pending && k !in todo ==> mp[k] == Merged(pending, members)[k]
      decreases todo
    {
      var k :| k in todo;
      todo := todo - {k};
      if k in members {
        var m := mp[k];
        var prior := members[k];
        m := m.(away := prior.away, account := prior.account, bot := prior.bot);
        if m.user == "" && m.host == "" {
          m := m.(user := prior.user, host := prior.host);
        }
        mp := mp[k := m];
      }
    }
  }

  ghost predicate AllAccurate(chans: map<string, ChannelState>) {
    forall k :: k in chans ==> Accurate(chans[k])
  }

  ghost predicate Becomes(st: ChannelState, c: Channel) {
    Accurate(st) && st.ch == c
  }

  method ApplyToAll(chans: map<string, ChannelState>, op: Op, over: bool, ghost want: State)
    returns (r: map<string, ChannelState>)
    requires AllAccurate(chans) && ValidOp(op) && want.Keys == chans.Keys
    requires forall k :: k in chans ==> want[k] == OnBoth(chans[k].ch, op, over)
    ensures AllAccurate(r) && ViewOf(r) == want
  {
    r := map[];
    var todo := chans.Keys;
    while todo != {}
      invariant todo <= chans.Keys && r.Keys == chans.Keys - todo
      invariant forall k :: k in r ==> Becomes(r[k], want[k])
      decreases todo
    {
      var k :| k in todo;
      var st := ApplyBoth(chans[k], op, over);
      assert Becomes(st, want[k]);
      todo := todo - {k};
      r := r[k := st];
    }
  }

  /** The first 353 of a burst starts an empty snapshot. */
  function WithPending(st: ChannelState): (r: ChannelState)
    ensures r.ch.pending == Some(Pending(st.ch)) && r.ch == st.ch.(pending := r.ch.pending)
    ensures Accurate(st) ==> Accurate(r)
  {
    if st.ch.pending.Some? then st else st.(ch := st.ch.(pending := Some(map[])))
  }

  lemma NamesStep(env: Env, mp: Members, listed: seq<Member>, i: nat, budget: int, left: int)
    requires i < |listed| && |mp| < env.limits.channelMembers && budget > 0 && left > 0
    ensures var m, k := listed[i], Fold(env.cm, listed[i].nick);
            AddNames(env, mp, listed[i..], budget, left) ==
            AddNames(env, mp[k := m], listed[i + 1..], if k in mp then budget else budget - 1, left - Delta(mp, k, m))
  {
    assert listed[i..][0] == listed[i] && listed[i..][1..] == listed[i + 1..];
  }

  lemma NamesView(env: Env, s: State, ck: string, listed: seq<Member>, c: Channel, budget: int, left: int)
    requires ck in s && c == s[ck]
    requires budget == env.limits.members - TotalMembers(s) && left == env.limits.bytes - TotalBytes(s)
    ensures OnNames(env, s, ck, listed) ==
            s[ck := c.(pending := Some(AddNames(env, Pending(c), listed, budget, left)))]
  {
  }

  /** The admission loop of namesReply: stop at the first budget that runs out. */
  method AddListed(env: Env, st0: ChannelState, listed: seq<Member>, budget0: int, left0: int) returns (st: ChannelState)
    requires Accurate(st0) && st0.ch.pending.Some?
    ensures Accurate(st)
    ensures st.ch == st0.ch.(pending := Some(AddNames(env, st0.ch.pending.value, listed, budget0, left0)))
  {
    st := st0;
    var budget, left, i := budget0, left0, 0;
    ghost var target := AddNames(env, st0.ch.pending.value, listed, budget0, left0);
    assert listed[0..] == listed;
    while i < |listed|
      invariant 0 <= i <= |listed|
      invariant Accurate(st) && st.ch.pending.Some? && st.ch == st0.ch.(pending := st.ch.pending)
      invariant AddNames(env, st.ch.pending.value, listed[i..], budget, left) == target
    {
      if |st.ch.pending.value| >= env.limits.channelMembers || budget <= 0 || left <= 0 { return; }
      var m := listed[i];
      var k := Fold(env.cm, m.nick);
      ghost var mp, budget1, left1 := st.ch.pending.value, budget, left;
      NamesStep(env, mp, listed, i, budget, left);
      if k !in st.ch.pending.value { budget := budget - 1; }
      var st' := Put(st, true, k, m);
      left := left - (st'.bytes - st.bytes);
      assert st'.ch.pending.value == mp[k := m];
      assert budget == if k in mp then budget1 else budget1 - 1;
      assert left == left1 - Delta(mp, k, m);
      assert AddNames(env, mp[k := m], listed[i + 1..], budget, left) == target;
      st := st';
      i := i + 1;
    }
  }

  lemma ModeSign(env: Env, letters: string, adding: bool, args: seq<string>, count: nat)
    requires WellFormed(env.modes) && letters != "" && (letters[0] == '+' || letters[0] == '-')
    ensures ModeOps(env, letters, adding, args, count) == ModeOps(env, letters[1..], letters[0] == '+', args, count)
  {
  }

  /** What one mode letter contributes, and what is left of the line. */
  lemma ModeStep(env: Env, s: State, ck: string, letters: string, adding: bool, args: seq<string>, arg: nat, count: nat)
    requires WellFormed(env.modes) && ck in s && arg <= |args|
    requires letters != "" && letters[0] != '+' && letters[0] != '-' && count + 1 <= MAX_MODE_LETTERS
    ensures var kind := ScanClass(env.modes, letters[0]);
            var nick := if arg < |args| then args[arg] else "";
            var next := if TakesArg(kind, adding) && arg < |args| then arg + 1 else arg;
            OnMode(env, s, ck, ModeOps(env, letters, adding, args[arg..], count)) ==
            OnMode(env, if kind.Status? then InChannel(env, s, ck, StatusOp(env, letters[0], nick, adding)) else s,
                   ck, ModeOps(env, letters[1..], adding, args[next..], count + 1))
  {
    var kind := ScanClass(env.modes, letters[0]);
    assert arg < |args| ==> args[arg..][0] == args[arg] && args[arg..][1..] == args[arg + 1..];
    var next := if TakesArg(kind, adding) && arg < |args| then arg + 1 else arg;
    var more := ModeOps(env, letters[1..], adding, args[next..], count + 1);
    if kind.Status? {
      var op := StatusOp(env, letters[0], if arg < |args| then args[arg] else "", adding);
      OneLetter(env, s, ck, op, more);
    } else {
      assert [] + more == more;
    }
  }

  lemma OneLetter(env: Env, s: State, ck: string, op: Op, more: seq<Op>)
    requires StatusOps([op]) && StatusOps(more) && ck in s && ValidOp(op)
    ensures StatusOps([op] + more)
    ensures OnMode(env, s, ck, [op] + more) == OnMode(env, InChannel(env, s, ck, op), ck, more)
  {
    assert op in [op];
    assert ([op] + more)[1..] == more;
  }

  class Roster {
    var chans: map<string, ChannelState>

    ghost function View(): State
      reads this
    {
      ViewOf(chans)
    }

    ghost predicate Valid()
      reads this
    {
      AllAccurate(chans)
    }

    constructor ()
      ensures Valid() && View() == map[]
    {
      chans := map[];
    }

    method TotalBytesNow() returns (n: int)
      requires Valid()
      ensures n == TotalBytes(View())
    {
      n := 0;
      var todo := chans;
      while todo != map[]
        invariant forall k :: k in todo ==> k in chans && todo[k] == chans[k]
        invariant n + Sum(ViewOf(todo), Weight) == Sum(ViewOf(chans), Weight)
        decreases |todo|
      {
        var k :| k in todo;
        SumWithout(ViewOf(todo), Weight, k);
        ViewWithout(todo, k);
        assert |todo - {k}| < |todo| by { assert (todo - {k}).Keys == todo.Keys - {k}; }
        n := n + todo[k].bytes;
        todo := todo - {k};
      }
      assert ViewOf(todo) == map[];
    }

    method TotalMembersNow() returns (n: int)
      ensures n == TotalMembers(View())
    {
      n := 0;
      var todo := chans;
      while todo != map[]
        invariant forall k :: k in todo ==> k in chans && todo[k] == chans[k]
        invariant n + Sum(ViewOf(todo), Held) == Sum(ViewOf(chans), Held)
        decreases |todo|
      {
        var k :| k in todo;
        SumWithout(ViewOf(todo), Held, k);
        ViewWithout(todo, k);
        assert |todo - {k}| < |todo| by { assert (todo - {k}).Keys == todo.Keys - {k}; }
        n := n + |todo[k].ch.members| + |Pending(todo[k].ch)|;
        todo := todo - {k};
      }
      assert ViewOf(todo) == map[];
    }

    /** QUIT, NICK and the nick-level facts: the same operation in every channel. */
    method ApplyEverywhere(env: Env, op: Op)
      requires Valid() && ValidOp(op)
      modifies this
      ensures Valid() && View() == Everywhere(env, old(View()), op)
    {
      var total := TotalBytesNow();
      chans := ApplyToAll(chans, op, total >= env.limits.bytes, Everywhere(env, View(), op));
    }

    method SetTopic(env: Env, ck: string, topic: string)
      requires Valid()
      modifies this
      ensures Valid() && View() == OnTopic(env, old(View()), ck, topic)
    {
      if ck in chans {
        var st := chans[ck];
        var total := TotalBytesNow();
        if |topic| > |st.ch.topic| && total >= env.limits.bytes { return; }
        var st' := ChannelState(st.ch.(topic := topic), st.bytes + |topic| - |st.ch.topic|);
        ViewUpdated(chans, ck, st');
        chans := chans[ck := st'];
      }
    }

    method MemberLeft(ck: string, key: string, ours: bool)
      requires Valid()
      modifies this
      ensures Valid() && View() == Leave(old(View()), ck, key, ours)
    {
      if ours {
        ViewWithout(chans, ck);
        chans := chans - {ck};
      } else if ck in chans {
        var st := ApplyBoth(chans[ck], Drop(key), false);
        ViewUpdated(chans, ck, st);
        chans := chans[ck := st];
      }
    }

    method MembersLeft(env: Env, ourNick: string, pairs: seq<(string, string)>)
      requires Valid()
      modifies this
      ensures Valid() && View() == LeaveAll(env, ourNick, old(View()), pairs)
    {
      for i := 0 to |pairs|
        invariant Valid()
        invariant LeaveAll(env, ourNick, View(), pairs[i..]) == LeaveAll(env, ourNick, old(View()), pairs)
      {
        assert pairs[i..][0] == pairs[i] && pairs[i..][1..] == pairs[i + 1..];
        MemberLeft(Key(env, pairs[i].0), Key(env, pairs[i].1), Ours(env, ourNick, pairs[i].1));
      }
    }

    method NamesReply(env: Env, ck: string, listed: seq<Member>)
      requires Valid()
      modifies this
      ensures Valid() && View() == OnNames(env, old(View()), ck, listed)
    {
      if ck !in chans { return; }
      var held := TotalMembersNow();
      var bytes := TotalBytesNow();
      var budget, left := env.limits.members - held, env.limits.bytes - bytes;
      ghost var s, c := View(), chans[ck].ch;
      NamesView(env, s, ck, listed, c, budget, left);
      var st := AddListed(env, WithPending(chans[ck]), listed, budget, left);
      assert st.ch == c.(pending := Some(AddNames(env, Pending(c), listed, budget, left)));
      ViewUpdated(chans, ck, st);
      chans := chans[ck := st];
    }

    method NamesEnded(ck: string)
      requires Valid()
      modifies this
      ensures Valid() && View() == OnNamesEnd(old(View()), ck)
    {
      if ck !in chans || chans[ck].ch.pending.None? { return; }
      var c := chans[ck].ch;
      var merged := MergeNames(c.pending.value, c.members);
      var st := Recompute(c.(members := merged, pending := None));
      ViewUpdated(chans, ck, st);
      chans := chans[ck := st];
    }

    method JoinChannel(env: Env, name: string, ours: bool) returns (found: bool)
      requires Valid()
      modifies this
      ensures Valid() && View() == Opened(env, old(View()), name, ours)
      ensures found == (Fold(env.cm, name) in chans)
    {
      var ck := Fold(env.cm, name);
      if ck in chans { return true; }
      assert |View()| == |chans| by { assert View().Keys == chans.Keys; }
      if !ours || |chans| >= env.limits.channels { return false; }
      var st := ChannelState(Channel(name, "", map[], None), 0);
      ViewUpdated(chans, ck, st);
      chans := chans[ck := st];
      return true;
    }

    method MemberJoin(env: Env, name: string, m: Member, ours: bool)
      requires Valid()
      modifies this
      ensures Valid() && View() == OnJoin(env, old(View()), name, m, ours)
    {
      var found := JoinChannel(env, name, ours);
      if !found { return; }
      AdmitMember(env, Fold(env.cm, name), m);
    }

    method AdmitMember(env: Env, ck: string, m: Member)
      requires Valid() && ck in chans
      modifies this
      ensures Valid() && View() == Admit(env, old(View()), ck, m)
    {
      var k, st := Fold(env.cm, m.nick), chans[ck];
      var bytes := TotalBytesNow();
      var overBytes := bytes >= env.limits.bytes;
      var held := TotalMembersNow();
      var known := k in st.ch.members;
      if !known && (|st.ch.members| >= env.limits.channelMembers || held >= env.limits.members || overBytes) {
        return;
      }
      if known && overBytes && MemberBytes(k, m) > MemberBytes(k, st.ch.members[k]) { return; }
      st := Put(st, false, k, m);
      ViewUpdated(chans, ck, st);
      chans := chans[ck := st];
      if st.ch.pending.Some? {
        held := TotalMembersNow();
        if k in st.ch.pending.value || (held < env.limits.members && !overBytes) {
          st := Put(st, true, k, m);
          ViewUpdated(chans, ck, st);
          chans := chans[ck := st];
        }
      }
    }

    method ApplyStatusMode(env: Env, ck: string, op: Op)
      requires Valid() && ck in chans && ValidOp(op)
      modifies this
      ensures Valid() && View() == InChannel(env, old(View()), ck, op)
    {
      var total := TotalBytesNow();
      var st := ApplyBoth(chans[ck], op, total >= env.limits.bytes);
      ViewUpdated(chans, ck, st);
      chans := chans[ck := st];
    }

    /** applyModeLetter: a status letter changes a member, any other only consumes its argument. */
    method ApplyModeLetter(env: Env, table: ModeTable, ck: string, letters: string, adding: bool,
                           args: seq<string>, arg: nat, count: nat) returns (next: nat)
      requires Valid() && ck in chans && WellFormed(env.modes) && arg <= |args|
      requires letters != "" && letters[0] != '+' && letters[0] != '-' && count + 1 <= MAX_MODE_LETTERS
      requires Class(table, letters[0]) == ScanClass(env.modes, letters[0])
      modifies this
      ensures Valid() && ck in chans && next <= |args|
      ensures OnMode(env, View(), ck, ModeOps(env, letters[1..], adding, args[next..], count + 1)) ==
              OnMode(env, old(View()), ck, ModeOps(env, letters, adding, args[arg..], count))
    {
      ModeStep(env, View(), ck, letters, adding, args, arg, count);
      var kind := Class(table, letters[0]);
      next := if TakesArg(kind, adding) && arg < |args| then arg + 1 else arg;
      if kind.Status? {
        var nick := if arg < |args| then args[arg] else "";
        ApplyStatusMode(env, ck, StatusOp(env, letters[0], nick, adding));
      }
    }

    /** One character of the mode string: a sign, or a letter with its argument. */
    method ApplyModeAt(env: Env, table: ModeTable, ck: string, letters: string, i: nat, adding: bool,
                       args: seq<string>, arg: nat, count: nat) returns (sign: bool, next: nat, seen: nat)
      requires Valid() && ck in chans && WellFormed(env.modes) && arg <= |args| && i < |letters|
      requires letters[i] == '+' || letters[i] == '-' || count + 1 <= MAX_MODE_LETTERS
      requires Class(table, letters[i]) == ScanClass(env.modes, letters[i])
      modifies this
      ensures Valid() && ck in chans && next <= |args|
      ensures OnMode(env, View(), ck, ModeOps(env, letters[i + 1..], sign, args[next..], seen)) ==
              OnMode(env, old(View()), ck, ModeOps(env, letters[i..], adding, args[arg..], count))
    {
      sign, next, seen := adding, arg, count;
      var rest := letters[i..];
      assert rest[0] == letters[i] && rest[1..] == letters[i + 1..];
      if letters[i] == '+' || letters[i] == '-' {
        ModeSign(env, rest, adding, args[arg..], count);
        sign := letters[i] == '+';
      } else {
        next := ApplyModeLetter(env, table, ck, rest, adding, args, arg, count);
        seen := count + 1;
      }
    }

    /** applyChannelMode: walk the letters, pairing each with its argument. */
    method ApplyChannelMode(env: Env, ck: string, letters: string, args: seq<string>)
      requires Valid() && ck in chans && WellFormed(env.modes)
      modifies this
      ensures Valid() && View() == OnMode(env, old(View()), ck, ModeOps(env, letters, true, args, 0))
    {
      var table := ModeClassifier(env.modes);
      ghost var target := OnMode(env, View(), ck, ModeOps(env, letters, true, args, 0));
      var adding, arg: nat, count: nat, i := true, 0, 0, 0;
      assert letters[0..] == letters && args[0..] == args;
      while i < |letters|
        invariant 0 <= i <= |letters| && arg <= |args|
        invariant Valid() && ck in chans
        invariant OnMode(env, View(), ck, ModeOps(env, letters[i..], adding, args[arg..], count)) == target
      {
        if letters[i] != '+' && letters[i] != '-' && count + 1 > MAX_MODE_LETTERS { return; }
        adding, arg, count := ApplyModeAt(env, table, ck, letters, i, adding, args, arg, count);
        i := i + 1;
      }
    }

    method Handle(env: Env, ourNick: string, msg: Message)
      requires Valid() && WellFormed(env.modes)
      modifies this
      ensures Valid() && View() == React(env, ourNick, old(View()), msg)
    {
      match msg
      case Names(channel, entries) =>
        NamesReply(env, Key(env, channel), NamesMembers(env.modes.prefixSymbols, entries));
      case NamesEnd(channel) => NamesEnded(Key(env, channel));
      case Topic(channel, topic) => SetTopic(env, Key(env, channel), Clamp(topic));
      case Join(channel, sender, _, _, _) =>
        MemberJoin(env, Clamp(channel), JoinMember(msg), Ours(env, ourNick, sender));
      case Part(channels, sender) => MembersLeft(env, ourNick, PartPairs(channels, sender));
      case Kick(channels, victims) => MembersLeft(env, ourNick, KickPairs(channels, victims));
      case Quit(sender) => ApplyEverywhere(env, Drop(Key(env, sender)));
      case Nick(sender, to) => ApplyEverywhere(env, Rekey(Key(env, sender), Key(env, to), Clamp(to)));
      case Fact(nick, update) => ApplyEverywhere(env, Revise(Key(env, nick), ClampUpdate(update)));
      case Mode(channel, letters, args) =>
        if Key(env, channel) in chans { ApplyChannelMode(env, Key(env, channel), letters, args); }
    }
  }
}
