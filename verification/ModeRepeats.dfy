/** MODE lines that name a member's status more than once.  Where such a line ends up is not decided by
    `CanPass`: what was granted may be revoked again in time. */
module ModeRepeats {
  import opened Sums
  import opened RosterModel
  import opened ModeLines

  predicate RevokedIn(ops: seq<Op>, key: string, status: char) {
    exists k :: 0 <= k < |ops| && ops[k] == Revoke(key, [status])
  }

  /** Every one-byte grant is taken back before the line ends. */
  predicate TakenBack(ops: seq<Op>) {
    forall j :: 0 <= j < |ops| && ops[j].Grant? ==>
      |ops[j].symbol| == 1 && RevokedIn(ops[j + 1..], ops[j].key, ops[j].symbol[0])
  }

  /** `m` has no more of any status than `before` had, unless the rest of the line revokes it. */
  predicate UnderOne(before: Member, m: Member, key: string, ops: seq<Op>) {
    && m == before.(prefix := m.prefix)
    && forall b :: b in m.prefix ==>
         multiset(m.prefix)[b] <= multiset(before.prefix)[b] || RevokedIn(ops, key, b)
  }

  predicate Under(before: Members, mp: Members, ops: seq<Op>) {
    mp.Keys == before.Keys && forall k :: k in mp ==> UnderOne(before[k], mp[k], k, ops)
  }

  lemma {:induction false} RemoveCounts(s: string, c: char, b: char)
    ensures multiset(RemoveAll(s, [c]))[b] == if b == c then 0 else multiset(s)[b]
  {
    if s != "" {
      RemoveCounts(s[1..], c, b);
      assert s == [s[0]] + s[1..];
      if [c] <= s { assert s[0] == c; } else { assert s[0] != c; }
    }
  }

  lemma AddCounts(rank: string, current: string, c: char, b: char)
    requires b != c
    ensures multiset(AddPrefix(rank, current, [c]))[b] == multiset(current)[b]
  {
    if Index(current, [c]) < 0 {
      var at := InsertAt(rank, current, Index(rank, [c]), 0);
      assert current == current[..at] + current[at..];
    }
  }

  lemma RevokedInRest(ops: seq<Op>, key: string, status: char)
    requires ops != [] && RevokedIn(ops, key, status) && ops[0] != Revoke(key, [status])
    ensures RevokedIn(ops[1..], key, status)
  {
    var k :| 0 <= k < |ops| && ops[k] == Revoke(key, [status]);
    assert ops[1..][k - 1] == ops[k];
  }

  lemma UnderOneStep(before: Member, m: Member, key: string, ops: seq<Op>, over: bool)
    requires ops != [] && UnderOne(before, m, key, ops) && ops[0].key == key && TakenBack(ops) && StatusOps(ops)
    requires |ops[0].symbol| == 1
    ensures UnderOne(before, OpIn(map[key := m], ops[0], over)[key], key, ops[1..])
  {
    var op, c := ops[0], ops[0].symbol[0];
    assert op in ops && op.symbol == [c];
    var after := OpIn(map[key := m], op, over)[key];
    forall b | b in after.prefix
      ensures multiset(after.prefix)[b] <= multiset(before.prefix)[b] || RevokedIn(ops[1..], key, b)
    {
      if op.Revoke? { RemoveCounts(m.prefix, c, b); } else if b != c { AddCounts(op.rank, m.prefix, c, b); }
      if b != c {
        assert multiset(after.prefix)[b] == multiset(m.prefix)[b];
        assert b in m.prefix;
        if RevokedIn(ops, key, b) { RevokedInRest(ops, key, b); }
      }
    }
  }

  predicate Narrow(ops: seq<Op>) {
    forall i :: 0 <= i < |ops| ==> (ops[i].Grant? || ops[i].Revoke?) && |ops[i].symbol| == 1
  }

  lemma UnderOther(before: Member, m: Member, key: string, ops: seq<Op>)
    requires ops != [] && UnderOne(before, m, key, ops) && (ops[0].Grant? || ops[0].key != key)
    ensures UnderOne(before, m, key, ops[1..])
  {
    forall b | b in m.prefix
      ensures multiset(m.prefix)[b] <= multiset(before.prefix)[b] || RevokedIn(ops[1..], key, b)
    {
      if RevokedIn(ops, key, b) { RevokedInRest(ops, key, b); }
    }
  }

  lemma UnderStep(before: Members, mp: Members, ops: seq<Op>, over: bool)
    requires ops != [] && Narrow(ops) && TakenBack(ops) && StatusOps(ops) && Under(before, mp, ops)
    ensures Under(before, OpIn(mp, ops[0], over), ops[1..])
  {
    var op := ops[0];
    var after := OpIn(mp, op, over);
    assert after.Keys == mp.Keys;
    forall k | k in after ensures UnderOne(before[k], after[k], k, ops[1..]) {
      if k == op.key {
        UnderOneStep(before[k], mp[k], k, ops, over);
      } else {
        UnderOther(before[k], mp[k], k, ops);
      }
    }
  }

  lemma UnderBytes(before: Members, mp: Members)
    requires Under(before, mp, [])
    ensures Sum(mp, MemberBytes) <= Sum(before, MemberBytes)
  {
    forall k | k in mp ensures MemberBytes(k, mp[k]) <= MemberBytes(k, before[k]) {
      assert UnderOne(before[k], mp[k], k, []);
      var a, b := multiset(mp[k].prefix), multiset(before[k].prefix);
      assert a <= b by {
        forall x | x in a ensures a[x] <= b[x] { assert x in mp[k].prefix; }
      }
      assert |b| == |a| + |b - a| by { assert b == a + (b - a); }
    }
    SumPointwise(mp, before, MemberBytes);
  }

  lemma TakenBackRest(ops: seq<Op>)
    requires ops != [] && TakenBack(ops)
    ensures TakenBack(ops[1..])
  {
    var rest := ops[1..];
    forall j | 0 <= j < |rest| && rest[j].Grant? ensures
      |rest[j].symbol| == 1 && RevokedIn(rest[j + 1..], rest[j].key, rest[j].symbol[0])
    {
      assert rest[j + 1..] == ops[j + 2..] && rest[j] == ops[j + 1];
    }
  }

  ghost predicate UnderChannel(before: Channel, c: Channel, ops: seq<Op>) {
    && c.topic == before.topic && c.pending.Some? == before.pending.Some?
    && Under(before.members, c.members, ops) && Under(Pending(before), Pending(c), ops)
  }

  lemma {:induction false} TakenBackKeeps(limit: int, before: Channel, c: Channel, ops: seq<Op>)
    requires Narrow(ops) && StatusOps(ops) && TakenBack(ops) && UnderChannel(before, c, ops)
    ensures Bytes(Play(limit, c, ops)) <= Bytes(before)
    decreases |ops|
  {
    if ops == [] {
      UnderBytes(before.members, c.members);
      UnderBytes(Pending(before), Pending(c));
    } else {
      var over := Bytes(c) >= limit;
      UnderStep(before.members, c.members, ops, over);
      UnderStep(Pending(before), Pending(c), ops, over);
      TakenBackRest(ops);
      TakenBackKeeps(limit, before, OnBoth(c, ops[0], over), ops[1..]);
    }
  }

  /** Every grant behind a revocation is taken back before the line ends. */
  ghost predicate TakenBackAfterRevoke(ops: seq<Op>)
    requires Narrow(ops)
  {
    forall i: nat, j: nat :: RevokeBeforeGrant(ops, i, j) ==> RevokedIn(ops[j + 1..], ops[j].key, ops[j].symbol[0])
  }

  lemma TakenBackFrom(ops: seq<Op>) returns (n: nat)
    requires Narrow(ops) && TakenBackAfterRevoke(ops)
    ensures n <= |ops| && (forall i :: 0 <= i < n ==> ops[i].Grant?) && TakenBack(ops[n..])
  {
    n := FirstFrom(ops, 0, (op: Op) => op.Revoke?);
    var rest := ops[n..];
    forall j | 0 <= j < |rest| && rest[j].Grant? ensures
      |rest[j].symbol| == 1 && RevokedIn(rest[j + 1..], rest[j].key, rest[j].symbol[0])
    {
      assert rest[j] == ops[n + j] && rest[j + 1..] == ops[n + j + 1..];
      assert RevokeBeforeGrant(ops, n, n + j);
    }
  }

  lemma {:induction false} RefusedThenTakenBack(limit: int, c: Channel, ops: seq<Op>, n: nat)
    requires Narrow(ops) && StatusOps(ops) && n <= |ops| && Bytes(c) >= limit
    requires (forall i :: 0 <= i < n ==> ops[i].Grant?) && TakenBack(ops[n..])
    ensures Bytes(Play(limit, c, ops)) <= Bytes(c)
    decreases n
  {
    if n == 0 {
      assert ops[0..] == ops;
      TakenBackKeeps(limit, c, c, ops);
    } else {
      GrantBytes(c, ops[0]);
      assert ops[1..][n - 1..] == ops[n..];
      RefusedThenTakenBack(limit, c, ops[1..], n - 1);
    }
  }

  /** A line of one-byte statuses that takes back every grant made behind a revocation ends within the ceiling. */
  lemma TakenBackEndsWithinCeiling(ops: seq<Op>)
    requires Narrow(ops) && StatusOps(ops) && TakenBackAfterRevoke(ops)
    ensures KeptAtEnd(ops)
  {
    var n := TakenBackFrom(ops);
    forall env, s, ck | Over(env, s) ensures Kept(env, s, ck, ops) {
      if ck in s {
        ModeIsPlay(env, s, ck, ops);
        RefusedThenTakenBack(Share(env, s, ck), s[ck], ops, n);
      }
    }
  }

  // ---- A grant that pays for another ------------------------------------------------------------------------------

  lemma {:induction false} RemoveTakesOne(s: string, c: char)
    requires c in s
    ensures |RemoveAll(s, [c])| < |s|
  {
    RemovesWhole(s, [c]);
    RemoveCounts(s, c, c);
    assert multiset(s)[c] > 0;
  }

  lemma FreesHeld(c: Channel, key: string, status: char)
    ensures var op := Revoke(key, [status]);
            Freed(c.members, op) + Freed(Pending(c), op) >= Has(c, key, status)
  {
    if key in c.members && status in c.members[key].prefix { RemoveTakesOne(c.members[key].prefix, status); }
    if key in Pending(c) && status in Pending(c)[key].prefix { RemoveTakesOne(Pending(c)[key].prefix, status); }
  }

  function Present(c: Channel, key: string): int {
    (if key in c.members then 1 else 0) + (if key in Pending(c) then 1 else 0)
  }

  lemma GrantGives(c: Channel, op: Op, status: char)
    requires op.Grant? && op.symbol == [status]
    ensures Has(OnBoth(c, op, false), op.key, status) == Present(c, op.key)
    ensures Present(OnBoth(c, op, false), op.key) == Present(c, op.key)
  {
    if op.key in c.members { AddedByte(op.rank, c.members[op.key].prefix, status); }
    if op.key in Pending(c) { AddedByte(op.rank, Pending(c)[op.key].prefix, status); }
  }

  lemma AddLeaves(rank: string, current: string, c: char, status: char)
    requires c != status
    ensures status in AddPrefix(rank, current, [c]) <==> status in current
  {
    AddCounts(rank, current, c, status);
    assert status in current <==> status in multiset(current);
  }

  lemma GrantLeaves(c: Channel, op: Op, status: char)
    requires op.Grant? && |op.symbol| == 1 && op.symbol[0] != status
    ensures Has(OnBoth(c, op, false), op.key, status) == Has(c, op.key, status)
  {
    assert op.symbol == [op.symbol[0]];
    if op.key in c.members { AddLeaves(op.rank, c.members[op.key].prefix, op.symbol[0], status); }
    if op.key in Pending(c) { AddLeaves(op.rank, Pending(c)[op.key].prefix, op.symbol[0], status); }
  }

  ghost function Letter(limit: int, c: Channel, op: Op): Channel
    requires ValidOp(op)
  {
    OnBoth(c, op, Bytes(c) >= limit)
  }

  lemma FourLetters(limit: int, c: Channel, p: Op, q: Op, r: Op, t: Op)
    requires StatusOps([p, q, r, t]) && ValidOp(p) && ValidOp(q) && ValidOp(r) && ValidOp(t)
    ensures Play(limit, c, [p, q, r, t]) == Letter(limit, Letter(limit, Letter(limit, Letter(limit, c, p), q), r), t)
  {
    var c1 := Letter(limit, c, p);
    var c2 := Letter(limit, c1, q);
    var c3 := Letter(limit, c2, r);
    assert [p, q, r, t][1..] == [q, r, t] && [q, r, t][1..] == [r, t] && [r, t][1..] == [t] && [t][1..] == [];
    assert Play(limit, c3, [t]) == Letter(limit, c3, t);
    assert Play(limit, c2, [r, t]) == Play(limit, c3, [t]);
    assert Play(limit, c1, [q, r, t]) == Play(limit, c2, [r, t]);
  }

  /** Two grants to one member below the ceiling, the first taken back: the second is paid for. */
  lemma SecondGrantPaid(limit: int, c: Channel, key: string, a: char, b: char, rank: string)
    requires a != b && Bytes(c) < limit
    ensures var c2 := OnBoth(c, Grant(key, [a], rank), false);
            var c3 := OnBoth(c2, Grant(key, [b], rank), Bytes(c2) >= limit);
            forall over :: Bytes(OnBoth(c3, Revoke(key, [a]), over)) < limit
  {
    var one, two, off := Grant(key, [a], rank), Grant(key, [b], rank), Revoke(key, [a]);
    var c2 := OnBoth(c, one, false);
    GrantBytes(c, one);
    GrantGives(c, one, a);
    NarrowGrant(c, one, a);
    GrantBytes(c2, two);
    GrantLeaves(c2, two, a);
    var c3 := OnBoth(c2, two, Bytes(c2) >= limit);
    FreesHeld(c3, key, a);
    forall over ensures Bytes(OnBoth(c3, off, over)) < limit {
      RevokeBytes(c3, off, over);
    }
  }

  function Shielded(off: Op, key: string, a: char, b: char, rank: string): seq<Op> {
    [off, Grant(key, [a], rank), Grant(key, [b], rank), Revoke(key, [a])]
  }

  lemma ShieldedKeeps(limit: int, c: Channel, off: Op, key: string, a: char, b: char, rank: string)
    requires off.Revoke? && Encoded(off.symbol) && a != b && Bytes(c) >= limit
    requires StatusOps(Shielded(off, key, a, b, rank))
    ensures Bytes(Play(limit, c, Shielded(off, key, a, b, rank))) <= Bytes(c)
  {
    var ops := Shielded(off, key, a, b, rank);
    FourLetters(limit, c, off, ops[1], ops[2], ops[3]);
    var c1 := OnBoth(c, off, true);
    RevokeBytes(c, off, true);
    if Bytes(c1) < limit {
      SecondGrantPaid(limit, c1, key, a, b, rank);
    } else {
      GrantBytes(c1, ops[1]);
      GrantBytes(c1, ops[2]);
      RevokeBytes(c1, ops[3], true);
    }
  }

  lemma ShieldedCanPass(off: Op, key: string, a: char, b: char, rank: string)
    requires off.Revoke? && Encoded(off.symbol) && a != b && a as int < 128 && b as int < 128
    ensures var ops := Shielded(off, key, a, b, rank); Line(ops) && StatusOps(ops) && CanPass(ops)
  {
    var ops := Shielded(off, key, a, b, rank);
    assert Pair(ops[2]) != Pair(ops[1]) && GrantsAnother(ops, 0, 1);
    assert RevokeBeforeGrant(ops, 0, 1);
  }

  /** Taking every grant back is not needed to end within the ceiling: here the second grant stays, and the
      first, revoked last, has made room for it whatever the channel held. */
  lemma ShieldedGrantEndsWithinCeiling(off: Op, key: string, a: char, b: char, rank: string)
    requires off.Revoke? && Encoded(off.symbol) && a != b && a as int < 128 && b as int < 128
    ensures var ops := Shielded(off, key, a, b, rank);
            Line(ops) && StatusOps(ops) && KeptAtEnd(ops) && CanPass(ops)
  {
    ShieldedCanPass(off, key, a, b, rank);
    var ops := Shielded(off, key, a, b, rank);
    forall env, s, ck | Over(env, s) ensures Kept(env, s, ck, ops) {
      ShieldedKept(env, s, ck, off, key, a, b, rank);
    }
  }

  lemma ShieldedKept(env: Env, s: State, ck: string, off: Op, key: string, a: char, b: char, rank: string)
    requires off.Revoke? && Encoded(off.symbol) && a != b && Over(env, s)
    requires StatusOps(Shielded(off, key, a, b, rank))
    ensures Kept(env, s, ck, Shielded(off, key, a, b, rank))
  {
    if ck in s {
      ModeIsPlay(env, s, ck, Shielded(off, key, a, b, rank));
      ShieldedKeeps(Share(env, s, ck), s[ck], off, key, a, b, rank);
    }
  }

  // ---- The last letter to take effect ---------------------------------------------------------------------------------

  lemma GrantAtMostTwo(c: Channel, op: Op)
    requires op.Grant? && |op.symbol| == 1
    ensures Bytes(OnBoth(c, op, false)) <= Bytes(c) + 2
    ensures Bytes(OnBoth(c, op, true)) == Bytes(c)
  {
    GrantBytes(c, op);
  }

  /** One-byte letters never take a channel more than one byte past its limit. */
  lemma {:induction false} OneBytePast(limit: int, c: Channel, ops: seq<Op>, top: int)
    requires Narrow(ops) && StatusOps(ops) && Bytes(c) <= top && limit + 1 <= top
    ensures Bytes(Play(limit, c, ops)) <= top
    decreases |ops|
  {
    if ops != [] {
      if ops[0].Grant? {
        GrantAtMostTwo(c, ops[0]);
      } else {
        RevokeBytes(c, ops[0], Bytes(c) >= limit);
      }
      OneBytePast(limit, OnBoth(c, ops[0], Bytes(c) >= limit), ops[1..], top);
    }
  }

  /** Letter `y` is granted in both maps one byte below the limit, and no letter behind it takes effect. */
  ghost predicate LastCrossing(limit: int, c: Channel, ops: seq<Op>, y: nat)
    requires Narrow(ops) && StatusOps(ops)
  {
    && y < |ops| && ops[y].Grant?
    && var d := Play(limit, c, ops[..y]);
       Bytes(d) == limit - 1 && Present(d, ops[y].key) == 2 && Has(d, ops[y].key, ops[y].symbol[0]) == 0
       && forall n :: y < n <= |ops| ==> Play(limit, c, ops[..n]) == OnBoth(d, ops[y], false)
  }

  lemma GrantedInBoth(c: Channel, op: Op)
    requires op.Grant? && |op.symbol| == 1
    ensures Bytes(OnBoth(c, op, false)) == Bytes(c) + 2 <==>
            Present(c, op.key) == 2 && Has(c, op.key, op.symbol[0]) == 0
  {
    assert op.symbol == [op.symbol[0]];
    GrantBytes(c, op);
    if op.key in c.members { IndexFinds(c.members[op.key].prefix, op.symbol[0]); }
    if op.key in Pending(c) { IndexFinds(Pending(c)[op.key].prefix, op.symbol[0]); }
  }

  /** A letter that leaves the channel above where it started is the crossing itself or changes nothing. */
  lemma AboveStep(limit: int, c: Channel, d: Channel, op: Op)
    requires (op.Grant? || op.Revoke?) && |op.symbol| == 1 && Bytes(c) >= limit && Bytes(d) <= Bytes(c) + 1
    requires Bytes(OnBoth(d, op, Bytes(d) >= limit)) > Bytes(c)
    ensures Bytes(d) >= limit ==> OnBoth(d, op, true) == d
    ensures Bytes(d) < limit ==>
            Bytes(c) == limit && op.Grant? && Bytes(d) == limit - 1
            && Present(d, op.key) == 2 && Has(d, op.key, op.symbol[0]) == 0
  {
    if op.Grant? {
      GrantBytes(d, op);
      GrantAtMostTwo(d, op);
      GrantedInBoth(d, op);
    } else {
      RevokeBytes(d, op, Bytes(d) >= limit);
    }
  }

  lemma LaterLetter(limit: int, c: Channel, ops: seq<Op>, y: nat)
    requires Narrow(ops) && StatusOps(ops) && ops != []
    requires Narrow(ops[..|ops| - 1]) && StatusOps(ops[..|ops| - 1]) && LastCrossing(limit, c, ops[..|ops| - 1], y)
    requires Play(limit, c, ops) == Play(limit, c, ops[..|ops| - 1])
    ensures LastCrossing(limit, c, ops, y)
  {
    var front := ops[..|ops| - 1];
    assert front[..y] == ops[..y] && front[..|front|] == front;
    forall n | y < n <= |ops| ensures Play(limit, c, ops[..n]) == Play(limit, c, ops[..y + 1]) {
      if n <= |front| {
        assert front[..n] == ops[..n] && front[..y + 1] == ops[..y + 1];
      } else {
        assert ops[..n] == ops && front[..y + 1] == ops[..y + 1];
      }
    }
    assert front[..y + 1] == ops[..y + 1];
  }

  lemma CrossesLast(limit: int, c: Channel, ops: seq<Op>, n: nat, d: Channel)
    requires Narrow(ops) && StatusOps(ops) && |ops| == n + 1 && d == Play(limit, c, ops[..n])
    requires ops[n].Grant? && Bytes(d) == limit - 1
    requires Present(d, ops[n].key) == 2 && Has(d, ops[n].key, ops[n].symbol[0]) == 0
    requires Play(limit, c, ops) == OnBoth(d, ops[n], false)
    ensures LastCrossing(limit, c, ops, n)
  {
    assert ops[..n + 1] == ops;
  }

  lemma LastLetter(limit: int, c: Channel, ops: seq<Op>, n: nat)
    requires Narrow(ops) && StatusOps(ops) && |ops| == n + 1
    ensures Narrow(ops[..n]) && StatusOps(ops[..n])
    ensures var d := Play(limit, c, ops[..n]); Play(limit, c, ops) == OnBoth(d, ops[n], Bytes(d) >= limit)
  {
    PlayOne(limit, c, ops, n);
    assert ops[..n + 1] == ops;
  }

  lemma {:induction false} AboveHasCrossing(limit: int, c: Channel, ops: seq<Op>) returns (y: nat)
    requires Narrow(ops) && StatusOps(ops) && Bytes(c) >= limit && Bytes(Play(limit, c, ops)) > Bytes(c)
    ensures Bytes(c) == limit && LastCrossing(limit, c, ops, y)
    decreases |ops|
  {
    var n := |ops| - 1;
    LastLetter(limit, c, ops, n);
    var d := Play(limit, c, ops[..n]);
    OneBytePast(limit, c, ops[..n], Bytes(c) + 1);
    AboveStep(limit, c, d, ops[n]);
    if Bytes(d) >= limit {
      y := AboveHasCrossing(limit, c, ops[..n]);
      LaterLetter(limit, c, ops, y);
    } else {
      y := n;
      CrossesLast(limit, c, ops, n, d);
    }
  }

  lemma CrossingEndsAbove(limit: int, c: Channel, ops: seq<Op>, y: nat)
    requires Narrow(ops) && StatusOps(ops) && LastCrossing(limit, c, ops, y)
    ensures Bytes(Play(limit, c, ops)) == limit + 1
  {
    GrantedInBoth(Play(limit, c, ops[..y]), ops[y]);
    assert ops[..|ops|] == ops;
  }

  /** Exactly when a line of one-byte statuses leaves a roster above where it started, at or over the ceiling: the total
      is at the ceiling, and some grant reaches both maps one byte below it with no letter behind that takes effect.  So
      it ends one byte above. */
  lemma LineEndsAboveIff(env: Env, s: State, ck: string, ops: seq<Op>)
    requires Narrow(ops) && StatusOps(ops) && Over(env, s) && ck in s
    ensures !Kept(env, s, ck, ops) <==>
            TotalBytes(s) == env.limits.bytes && exists y: nat :: LastCrossing(Share(env, s, ck), s[ck], ops, y)
    ensures TotalBytes(OnMode(env, s, ck, ops)) <= TotalBytes(s) + 1
  {
    var limit, c := Share(env, s, ck), s[ck];
    ModeIsPlay(env, s, ck, ops);
    OneBytePast(limit, c, ops, Bytes(c) + 1);
    if !Kept(env, s, ck, ops) {
      var y := AboveHasCrossing(limit, c, ops);
    }
    if y: nat :| LastCrossing(limit, c, ops, y) {
      CrossingEndsAbove(limit, c, ops, y);
    }
  }
}
