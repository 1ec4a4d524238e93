/** Which MODE lines keep the roster's byte ceiling, read off the line alone. */
module ModeLines {
  import opened Wrappers
  import opened Sums
  import opened Casemap
  import opened Isupport
  import opened RosterModel
  import RosterLaws

  // ---- Lines ---------------------------------------------------------------------------------------------------

  /** The status changes of a MODE line. */
  predicate Line(ops: seq<Op>) {
    forall i :: 0 <= i < |ops| ==> (ops[i].Grant? || ops[i].Revoke?) && Encoded(ops[i].symbol)
  }

  /** The members are named by their keys. */
  predicate FoldedKeys(cm: CaseMapping, ops: seq<Op>) {
    forall i :: 0 <= i < |ops| ==> Fold(cm, ops[i].key) == ops[i].key
  }

  lemma ModeOpsIsLine(env: Env, letters: string, adding: bool, args: seq<string>, count: nat)
    requires WellFormed(env.modes)
    ensures Line(ModeOps(env, letters, adding, args, count))
    ensures FoldedKeys(env.cm, ModeOps(env, letters, adding, args, count))
  {
    var ops := ModeOps(env, letters, adding, args, count);
    forall i | 0 <= i < |ops|
      ensures (ops[i].Grant? || ops[i].Revoke?) && Encoded(ops[i].symbol) && Fold(env.cm, ops[i].key) == ops[i].key
    {
      assert ops[i] in ops;
    }
  }

  /** The member and the status a letter is about. */
  function Pair(op: Op): (string, string)
    requires op.Grant? || op.Revoke?
  {
    (op.key, op.symbol)
  }

  predicate RevokeBeforeGrant(ops: seq<Op>, i: nat, j: nat) {
    i < j < |ops| && ops[i].Revoke? && ops[j].Grant?
  }

  /** Some letter behind j's revocation grants another status than j does. */
  predicate GrantsAnother(ops: seq<Op>, i: nat, j: nat)
    requires Line(ops) && i < j < |ops|
  {
    exists k :: i < k < |ops| && ops[k].Grant? && Pair(ops[k]) != Pair(ops[j])
  }

  /** A revocation is followed by a grant more than half as wide, or by grants of two different statuses. */
  ghost predicate CanPass(ops: seq<Op>)
    requires Line(ops)
  {
    exists i: nat, j: nat :: RevokeBeforeGrant(ops, i, j)
      && (|ops[i].symbol| < 2 * |ops[j].symbol| || GrantsAnother(ops, i, j))
  }

  lemma CanPassPrefix(ops: seq<Op>, n: nat)
    requires Line(ops) && n <= |ops| && CanPass(ops[..n])
    ensures CanPass(ops)
  {
    var p := ops[..n];
    var i: nat, j: nat :| RevokeBeforeGrant(p, i, j) && (|p[i].symbol| < 2 * |p[j].symbol| || GrantsAnother(p, i, j));
    assert RevokeBeforeGrant(ops, i, j);
    if GrantsAnother(p, i, j) {
      var k :| i < k < |p| && p[k].Grant? && Pair(p[k]) != Pair(p[j]);
      assert ops[k] == p[k];
    }
  }

  // ---- One channel on its own ------------------------------------------------------------------------------------

  ghost function Bytes(c: Channel): int {
    Weight("", c)
  }

  /** The line on one channel, which is over the ceiling while its bytes are at or above `limit`. */
  ghost function Play(limit: int, c: Channel, ops: seq<Op>): Channel
    requires StatusOps(ops)
    decreases |ops|
  {
    if ops == [] then c else Play(limit, OnBoth(c, ops[0], Bytes(c) >= limit), ops[1..])
  }

  /** What the ceiling leaves for one channel. */
  ghost function Share(env: Env, s: State, ck: string): int
    requires ck in s
  {
    env.limits.bytes - TotalBytes(s) + Bytes(s[ck])
  }

  lemma LetterInChannel(env: Env, s: State, ck: string, op: Op)
    requires ValidOp(op) && ck in s
    ensures var t := InChannel(env, s, ck, op);
            && ck in t && t[ck] == OnBoth(s[ck], op, Bytes(s[ck]) >= Share(env, s, ck))
            && TotalBytes(t) - TotalBytes(s) == Bytes(t[ck]) - Bytes(s[ck]) && Share(env, t, ck) == Share(env, s, ck)
  {
    RosterLaws.Replaced(env, s, ck, OnBoth(s[ck], op, Over(env, s)));
  }

  lemma {:induction false} ModeIsPlay(env: Env, s: State, ck: string, ops: seq<Op>)
    requires StatusOps(ops) && ck in s
    ensures TotalBytes(OnMode(env, s, ck, ops)) - TotalBytes(s)
            == Bytes(Play(Share(env, s, ck), s[ck], ops)) - Bytes(s[ck])
    decreases |ops|
  {
    if ops != [] {
      LetterInChannel(env, s, ck, ops[0]);
      ModeIsPlay(env, InChannel(env, s, ck, ops[0]), ck, ops[1..]);
    }
  }

  lemma {:induction false} PlayAppend(limit: int, c: Channel, a: seq<Op>, b: seq<Op>)
    requires StatusOps(a) && StatusOps(b)
    ensures StatusOps(a + b) && Play(limit, c, a + b) == Play(limit, Play(limit, c, a), b)
    decreases |a|
  {
    if a == [] {
      assert a + b == b;
    } else {
      assert (a + b)[1..] == a[1..] + b;
      PlayAppend(limit, OnBoth(c, a[0], Bytes(c) >= limit), a[1..], b);
    }
  }

  // ---- What one letter does ----------------------------------------------------------------------------------------

  lemma {:induction false} RemovesWhole(s: string, symbol: string)
    requires symbol != ""
    ensures RemoveAll(s, symbol) == s || |RemoveAll(s, symbol)| <= |s| - |symbol|
  {
    if s != "" {
      if symbol <= s {
      } else {
        RemovesWhole(s[1..], symbol);
        assert s == [s[0]] + s[1..];
      }
    }
  }

  function Freed(mp: Members, op: Op): int
    requires op.Revoke? && op.symbol != ""
  {
    if op.key in mp then |mp[op.key].prefix| - |RemoveAll(mp[op.key].prefix, op.symbol)| else 0
  }

  lemma RevokeFrees(mp: Members, op: Op, over: bool)
    requires op.Revoke? && op.symbol != ""
    ensures Sum(OpIn(mp, op, over), MemberBytes) == Sum(mp, MemberBytes) - Freed(mp, op)
    ensures Freed(mp, op) == 0 || Freed(mp, op) >= |op.symbol|
    ensures Freed(mp, op) == 0 ==> OpIn(mp, op, over) == mp
  {
    if op.key in mp {
      var m := mp[op.key];
      SumUpdated(mp, MemberBytes, op.key, m.(prefix := RemoveAll(m.prefix, op.symbol)));
      RemovesWhole(m.prefix, op.symbol);
    }
  }

  lemma RevokeBytes(c: Channel, op: Op, over: bool)
    requires op.Revoke? && op.symbol != ""
    ensures Bytes(OnBoth(c, op, over)) == Bytes(c) - Freed(c.members, op) - Freed(Pending(c), op)
    ensures Bytes(OnBoth(c, op, over)) == Bytes(c) || Bytes(OnBoth(c, op, over)) <= Bytes(c) - |op.symbol|
    ensures Bytes(OnBoth(c, op, over)) == Bytes(c) ==> OnBoth(c, op, over) == c
  {
    RevokeFrees(c.members, op, over);
    RevokeFrees(Pending(c), op, over);
  }

  function Gained(mp: Members, op: Op): int
    requires op.Grant?
  {
    if RosterLaws.Lacks(mp, op) then |op.symbol| else 0
  }

  lemma GrantBytes(c: Channel, op: Op)
    requires op.Grant? && op.symbol != ""
    ensures Bytes(OnBoth(c, op, false)) == Bytes(c) + Gained(c.members, op) + Gained(Pending(c), op)
    ensures OnBoth(c, op, true) == c
    ensures Gained(c.members, op) == 0 && Gained(Pending(c), op) == 0 ==> OnBoth(c, op, false) == c
  {
    RosterLaws.GrantGrows(c.members, op);
    RosterLaws.GrantGrows(Pending(c), op);
    assert OpIn(c.members, op, true) == c.members;
    if c.pending.Some? { assert OpIn(c.pending.value, op, true) == c.pending.value; }
  }

  // ---- Lines that keep the ceiling ---------------------------------------------------------------------------------

  predicate AllRevokes(ops: seq<Op>) {
    forall i :: 0 <= i < |ops| ==> ops[i].Revoke?
  }

  lemma {:induction false} RevokesShrink(limit: int, c: Channel, ops: seq<Op>)
    requires StatusOps(ops) && AllRevokes(ops)
    ensures Bytes(Play(limit, c, ops)) <= Bytes(c)
    decreases |ops|
  {
    if ops != [] {
      assert ops[0] in ops;
      RevokeBytes(c, ops[0], Bytes(c) >= limit);
      RevokesShrink(limit, OnBoth(c, ops[0], Bytes(c) >= limit), ops[1..]);
    }
  }

  /** In how many of the channel's maps the member has the status. */
  function Has(c: Channel, key: string, status: char): int {
    (if key in c.members && status in c.members[key].prefix then 1 else 0)
    + (if key in Pending(c) && status in Pending(c)[key].prefix then 1 else 0)
  }

  /** Every grant is of this one-byte status, and a revocation before a grant is of a wider one. */
  ghost predicate OneNarrowGrant(ops: seq<Op>, key: string, status: char) {
    && (forall j :: 0 <= j < |ops| && ops[j].Grant? ==> ops[j].key == key && ops[j].symbol == [status])
    && (forall i: nat, j: nat :: RevokeBeforeGrant(ops, i, j) ==> |ops[i].symbol| == 2)
  }

  lemma {:induction false} IndexFinds(s: string, c: char)
    ensures Index(s, [c]) >= 0 <==> c in s
  {
    RosterLaws.IndexOfByte(s, c);
  }

  lemma {:induction false} RemoveKeepsByte(s: string, symbol: string, c: char)
    requires symbol != "" && c !in symbol
    ensures c in RemoveAll(s, symbol) <==> c in s
  {
    if s != "" {
      if symbol <= s {
        RemoveKeepsByte(s[|symbol|..], symbol, c);
        assert s == symbol + s[|symbol|..];
      } else {
        RemoveKeepsByte(s[1..], symbol, c);
        assert s == [s[0]] + s[1..];
      }
    }
  }

  lemma WideRevokeKeeps(c: Channel, op: Op, over: bool, key: string, status: char)
    requires op.Revoke? && Encoded(op.symbol) && |op.symbol| == 2 && status as int < 128
    ensures Has(OnBoth(c, op, over), key, status) == Has(c, key, status)
  {
    if op.key in c.members { RemoveKeepsByte(c.members[op.key].prefix, op.symbol, status); }
    if op.key in Pending(c) { RemoveKeepsByte(Pending(c)[op.key].prefix, op.symbol, status); }
  }

  lemma {:induction false} AddedByte(rank: string, current: string, c: char)
    ensures c in AddPrefix(rank, current, [c])
  {
    IndexFinds(current, c);
    if Index(current, [c]) < 0 {
      var at := InsertAt(rank, current, Index(rank, [c]), 0);
      assert (current[..at] + [c] + current[at..])[at] == c;
    }
  }

  lemma NarrowGrant(c: Channel, op: Op, status: char)
    requires op.Grant? && op.symbol == [status]
    ensures Bytes(OnBoth(c, op, false)) - Bytes(c) == Has(OnBoth(c, op, false), op.key, status) - Has(c, op.key, status)
  {
    GrantBytes(c, op);
    if op.key in c.members {
      IndexFinds(c.members[op.key].prefix, status);
      AddedByte(op.rank, c.members[op.key].prefix, status);
    }
    if op.key in Pending(c) {
      IndexFinds(Pending(c)[op.key].prefix, status);
      AddedByte(op.rank, Pending(c)[op.key].prefix, status);
    }
  }

  /** One narrow status cannot win back what a wide revocation freed. */
  lemma {:induction false} NarrowKeeps(limit: int, c: Channel, ops: seq<Op>, key: string, status: char)
    requires Line(ops) && StatusOps(ops) && OneNarrowGrant(ops, key, status) && status as int < 128
    ensures Bytes(Play(limit, c, ops)) <= Bytes(c) + 2 - Has(c, key, status)
    ensures Bytes(c) >= limit ==> Bytes(Play(limit, c, ops)) <= Bytes(c)
    decreases |ops|
  {
    if ops == [] {
    } else if AllRevokes(ops) {
      RevokesShrink(limit, c, ops);
    } else {
      var op, over := ops[0], Bytes(c) >= limit;
      var d := OnBoth(c, op, over);
      var rest := ops[1..];
      assert op in ops;
      NarrowRest(ops, key, status);
      NarrowKeeps(limit, d, rest, key, status);
      if op.Grant? {
        GrantBytes(c, op);
        if !over { NarrowGrant(c, op, status); }
      } else {
        var j :| 0 <= j < |ops| && ops[j].Grant?;
        assert RevokeBeforeGrant(ops, 0, j);
        RevokeBytes(c, op, over);
        WideRevokeKeeps(c, op, over, key, status);
      }
    }
  }

  lemma NarrowRest(ops: seq<Op>, key: string, status: char)
    requires ops != [] && OneNarrowGrant(ops, key, status)
    ensures OneNarrowGrant(ops[1..], key, status)
  {
    var rest := ops[1..];
    forall i: nat, j: nat | RevokeBeforeGrant(rest, i, j) ensures |rest[i].symbol| == 2 {
      assert RevokeBeforeGrant(ops, i + 1, j + 1);
    }
  }

  lemma CanPassLater(ops: seq<Op>)
    requires Line(ops) && ops != [] && CanPass(ops[1..])
    ensures CanPass(ops)
  {
    var p := ops[1..];
    var i: nat, j: nat :| RevokeBeforeGrant(p, i, j) && (|p[i].symbol| < 2 * |p[j].symbol| || GrantsAnother(p, i, j));
    assert RevokeBeforeGrant(ops, i + 1, j + 1);
    if GrantsAnother(p, i, j) {
      var k :| i < k < |p| && p[k].Grant? && Pair(p[k]) != Pair(p[j]);
      assert ops[k + 1] == p[k];
    }
  }

  /** Behind a leading revocation a line that cannot pass grants one narrow status only. */
  lemma GrantsAreNarrow(ops: seq<Op>, j: nat)
    requires Line(ops) && !CanPass(ops) && RevokeBeforeGrant(ops, 0, j)
    ensures |ops[j].symbol| == 1 && OneNarrowGrant(ops, ops[j].key, ops[j].symbol[0])
  {
    assert !GrantsAnother(ops, 0, j);
    forall k | 0 <= k < |ops| && ops[k].Grant? ensures Pair(ops[k]) == Pair(ops[j]) {
    }
    forall i: nat, k: nat | RevokeBeforeGrant(ops, i, k) ensures |ops[i].symbol| == 2 {
    }
  }

  lemma {:induction false} KeptUnlessCanPass(limit: int, c: Channel, ops: seq<Op>)
    requires Line(ops) && StatusOps(ops) && !CanPass(ops) && Bytes(c) >= limit
    ensures Bytes(Play(limit, c, ops)) <= Bytes(c)
    decreases |ops|
  {
    if ops == [] {
    } else if ops[0].Grant? {
      GrantBytes(c, ops[0]);
      if CanPass(ops[1..]) { CanPassLater(ops); }
      KeptUnlessCanPass(limit, c, ops[1..]);
    } else if AllRevokes(ops) {
      RevokesShrink(limit, c, ops);
    } else {
      var j :| 0 <= j < |ops| && ops[j].Grant?;
      GrantsAreNarrow(ops, j);
      NarrowKeeps(limit, c, ops, ops[j].key, ops[j].symbol[0]);
    }
  }

  // ---- Lines that can pass it ----------------------------------------------------------------------------------

  /** The revocation finds nothing to take. */
  predicate Still(c: Channel, op: Op)
    requires op.Revoke? && Encoded(op.symbol)
  {
    && (op.key in c.members ==> RemoveAll(c.members[op.key].prefix, op.symbol) == c.members[op.key].prefix)
    && (op.key in Pending(c) ==> RemoveAll(Pending(c)[op.key].prefix, op.symbol) == Pending(c)[op.key].prefix)
  }

  predicate AlreadyHas(c: Channel, op: Op)
    requires op.Grant?
  {
    !RosterLaws.Lacks(c.members, op) && !RosterLaws.Lacks(Pending(c), op)
  }

  ghost predicate Inert(limit: int, c: Channel, ops: seq<Op>) {
    && Line(ops)
    && forall i :: 0 <= i < |ops| ==>
         if ops[i].Grant? then Bytes(c) >= limit || AlreadyHas(c, ops[i]) else Still(c, ops[i])
  }

  lemma {:induction false} InertPlay(limit: int, c: Channel, ops: seq<Op>)
    requires Inert(limit, c, ops) && StatusOps(ops)
    ensures Play(limit, c, ops) == c
    decreases |ops|
  {
    if ops != [] {
      if ops[0].Grant? {
        GrantBytes(c, ops[0]);
      } else {
        RevokeBytes(c, ops[0], Bytes(c) >= limit);
      }
      InertPlay(limit, c, ops[1..]);
    }
  }

  lemma PlayOne(limit: int, c: Channel, ops: seq<Op>, y: nat)
    requires StatusOps(ops) && y < |ops|
    ensures var d := Play(limit, c, ops[..y]); Play(limit, c, ops[..y + 1]) == OnBoth(d, ops[y], Bytes(d) >= limit)
  {
    var d, last := Play(limit, c, ops[..y]), [ops[y]];
    PlayAppend(limit, c, ops[..y], last);
    assert ops[..y + 1] == ops[..y] + last;
    assert Play(limit, d, last) == Play(limit, OnBoth(d, ops[y], Bytes(d) >= limit), last[1..]);
  }

  /** Playing up to and including letter `y`, when the letters from `from` to it change nothing. */
  lemma PlayOn(limit: int, c: Channel, ops: seq<Op>, from: nat, y: nat, d: Channel)
    requires Line(ops) && StatusOps(ops) && from <= y < |ops|
    requires Play(limit, c, ops[..from]) == d && Inert(limit, d, ops[from..y])
    ensures Play(limit, c, ops[..y + 1]) == OnBoth(d, ops[y], Bytes(d) >= limit)
  {
    var middle := ops[from..y];
    InertPlay(limit, d, middle);
    PlayAppend(limit, c, ops[..from], middle);
    assert ops[..y] == ops[..from] + middle;
    PlayOne(limit, c, ops, y);
  }

  lemma {:induction false} TooShort(s: string, symbol: string)
    requires |s| < |symbol|
    ensures RemoveAll(s, symbol) == s
  {
    if s != "" {
      TooShort(s[1..], symbol);
      assert s == [s[0]] + s[1..];
    }
  }

  lemma {:induction false} AbsentByte(s: string, symbol: string)
    requires symbol != "" && forall k :: 0 <= k < |s| ==> s[k] != symbol[0]
    ensures RemoveAll(s, symbol) == s
  {
    if s != "" {
      AbsentByte(s[1..], symbol);
      assert s == [s[0]] + s[1..];
    }
  }

  lemma RemoveFirst(symbol: string, rest: string)
    requires symbol != ""
    ensures RemoveAll(symbol + rest, symbol) == RemoveAll(rest, symbol)
  {
    assert symbol <= symbol + rest && (symbol + rest)[|symbol|..] == rest;
  }

  /** Encoded statuses do not overlap: taking one away leaves another. */
  lemma OtherStatusStays(a: string, symbol: string)
    requires Encoded(a) && Encoded(symbol) && a != symbol
    ensures RemoveAll(a, symbol) == a
  {
    if |a| < |symbol| {
      TooShort(a, symbol);
    } else if |symbol| == 1 {
      AbsentByte(a, symbol);
    } else {
      TooShort(a[1..], symbol);
      assert a == [a[0]] + a[1..];
    }
  }

  lemma OtherStatusesStay(a: string, b: string, symbol: string)
    requires Encoded(a) && Encoded(b) && Encoded(symbol) && |a| == 1 && a != symbol && b != symbol
    ensures RemoveAll(a + b, symbol) == a + b && RemoveAll(b + a, symbol) == b + a
  {
    OtherStatusStays(b, symbol);
    if |symbol| == 1 {
      AbsentByte(a + b, symbol);
      AbsentByte(b + a, symbol);
    } else {
      assert (a + b)[0] == a[0] && (a + b)[1..] == b && a + b == [a[0]] + b;
      var t := b + a;
      assert t == [t[0]] + t[1..];
      if |b| == 1 {
        TooShort(t[1..], symbol);
      } else {
        assert t[1..] == [t[1]] + a && t[1..][1..] == a && t[..2] == b;
        assert t[0] == b[0] && t[1] == b[1] && t[1..][1] == a[0];
        TooShort(a, symbol);
      }
    }
  }

  function Bare(key: string, prefix: string): Member {
    Member(key, prefix, false, "", false, "", "")
  }

  function Two(live: Members, pending: Members): Channel {
    Channel("#", "", live, Some(pending))
  }

  /** The members a line names. */
  function Names(ops: seq<Op>): set<string> {
    set i | 0 <= i < |ops| :: ops[i].key
  }

  predicate NickIsKey(mp: Members) {
    forall k :: k in mp ==> mp[k].nick == k
  }

  /** A channel that holds no one but members the line names, each under its own nick. */
  predicate OfLine(c: Channel, ops: seq<Op>) {
    && c.name == "#" && NickIsKey(c.members) && NickIsKey(Pending(c))
    && c.members.Keys <= Names(ops) && Pending(c).Keys <= Names(ops)
  }

  /** Only revocations of `a` or of `b` can still take something. */
  ghost predicate Settled(c: Channel, a: (string, string), b: (string, string)) {
    forall op: Op :: op.Revoke? && Encoded(op.symbol) && Pair(op) != a && Pair(op) != b ==> Still(c, op)
  }

  function OvertakeStart(off: Op, on: Op): Channel
    requires off.Revoke? && on.Grant?
  {
    Two(map[on.key := Bare(on.key, "")][off.key := Bare(off.key, off.symbol)], map[on.key := Bare(on.key, "")])
  }

  function OvertakeMiddle(off: Op, on: Op): Channel
    requires off.Revoke? && on.Grant?
  {
    Two(map[on.key := Bare(on.key, "")][off.key := Bare(off.key, "")], map[on.key := Bare(on.key, "")])
  }

  function OvertakeEnd(off: Op, on: Op): Channel
    requires off.Revoke? && on.Grant?
  {
    Two(map[off.key := Bare(off.key, "")][on.key := Bare(on.key, on.symbol)], map[on.key := Bare(on.key, on.symbol)])
  }

  lemma OvertakeFrees(off: Op, on: Op, over: bool)
    requires off.Revoke? && on.Grant? && Encoded(off.symbol)
    ensures var c := OvertakeStart(off, on);
            OnBoth(c, off, over) == OvertakeMiddle(off, on)
            && Bytes(OvertakeMiddle(off, on)) == Bytes(c) - |off.symbol|
  {
    var c := OvertakeStart(off, on);
    assert RemoveAll(off.symbol, off.symbol) == "" by {
      RemoveFirst(off.symbol, "");
      assert off.symbol + "" == off.symbol;
    }
    RevokeBytes(c, off, over);
    assert OnBoth(c, off, over).members == OvertakeMiddle(off, on).members;
    assert OnBoth(c, off, over).pending.value == OvertakeMiddle(off, on).pending.value;
  }

  lemma AddToNone(rank: string, symbol: string)
    requires symbol != ""
    ensures Index("", symbol) < 0 && AddPrefix(rank, "", symbol) == symbol
  {
  }

  lemma OvertakeGrants(off: Op, on: Op)
    requires off.Revoke? && on.Grant? && Encoded(on.symbol)
    ensures OnBoth(OvertakeMiddle(off, on), on, false) == OvertakeEnd(off, on)
    ensures Bytes(OvertakeEnd(off, on)) == Bytes(OvertakeMiddle(off, on)) + 2 * |on.symbol|
  {
    var c, d := OvertakeMiddle(off, on), OvertakeEnd(off, on);
    AddToNone(on.rank, on.symbol);
    assert OpIn(c.members, on, false) == d.members;
    assert OpIn(c.pending.value, on, false) == d.pending.value;
    GrantBytes(c, on);
  }

  lemma OvertakeSettled(off: Op, on: Op)
    requires off.Revoke? && on.Grant? && Encoded(on.symbol)
    ensures Settled(OvertakeEnd(off, on), Pair(on), Pair(on))
  {
    var d := OvertakeEnd(off, on);
    forall op: Op | op.Revoke? && Encoded(op.symbol) && Pair(op) != Pair(on) ensures Still(d, op) {
      if op.key == on.key { OtherStatusStays(on.symbol, op.symbol); }
    }
  }

  lemma OvertakeInert(ops: seq<Op>, i: nat, y: nat)
    requires Line(ops) && RevokeBeforeGrant(ops, i, y)
    requires forall k :: 0 <= k < i && ops[k].Revoke? ==> |ops[k].symbol| > |ops[i].symbol|
    requires forall k :: i < k < y ==> ops[k].Revoke?
    ensures var c := OvertakeStart(ops[i], ops[y]); Inert(Bytes(c), c, ops[0..i])
    ensures var c := OvertakeStart(ops[i], ops[y]); Inert(Bytes(c), OvertakeMiddle(ops[i], ops[y]), ops[i + 1..y])
  {
    var c := OvertakeStart(ops[i], ops[y]);
    forall k | 0 <= k < i && ops[k].Revoke? ensures Still(c, ops[k]) {
      TooShort(ops[i].symbol, ops[k].symbol);
    }
  }

  /** At the ceiling: a status is revoked, and the next grant finds room for one check but two maps. */
  lemma Overtake(ops: seq<Op>, i: nat, y: nat)
    requires Line(ops) && StatusOps(ops) && RevokeBeforeGrant(ops, i, y) && |ops[i].symbol| < 2 * |ops[y].symbol|
    requires forall k :: 0 <= k < i && ops[k].Revoke? ==> |ops[k].symbol| > |ops[i].symbol|
    requires forall k :: i < k < y ==> ops[k].Revoke?
    ensures var c, d := OvertakeStart(ops[i], ops[y]), OvertakeEnd(ops[i], ops[y]);
            Play(Bytes(c), c, ops[..y + 1]) == d && Bytes(d) > Bytes(c)
  {
    var c, e := OvertakeStart(ops[i], ops[y]), OvertakeMiddle(ops[i], ops[y]);
    var limit := Bytes(c);
    OvertakeInert(ops, i, y);
    assert ops[..0] == [];
    PlayOn(limit, c, ops, 0, i, c);
    OvertakeFrees(ops[i], ops[y], true);
    PlayOn(limit, c, ops, i + 1, y, e);
    OvertakeGrants(ops[i], ops[y]);
  }

  // The second way past: a wide status is revoked, and two narrow or wide ones are granted in its place.

  predicate Climbing(off: Op, one: Op, two: Op) {
    && off.Revoke? && one.Grant? && two.Grant? && Encoded(off.symbol) && Encoded(one.symbol) && Encoded(two.symbol)
    && |off.symbol| == 2 && |one.symbol| == 1 && Pair(one) != Pair(two)
  }

  /** The live map once the wide status is gone. */
  function ClimbBase(off: Op, one: Op, two: Op): Members
    requires Climbing(off, one, two)
  {
    if one.key == two.key then map[off.key := Bare(off.key, "")][one.key := Bare(one.key, one.symbol)]
    else map[off.key := Bare(off.key, "")][one.key := Bare(one.key, "")][two.key := Bare(two.key, "")]
  }

  function ClimbStart(off: Op, one: Op, two: Op): Channel
    requires Climbing(off, one, two)
  {
    var base := ClimbBase(off, one, two);
    Two(base[off.key := Bare(off.key, off.symbol + base[off.key].prefix)], map[two.key := Bare(two.key, "")])
  }

  function ClimbFreed(off: Op, one: Op, two: Op): Channel
    requires Climbing(off, one, two)
  {
    Two(ClimbBase(off, one, two), map[two.key := Bare(two.key, "")])
  }

  function ClimbHalf(off: Op, one: Op, two: Op): Channel
    requires Climbing(off, one, two)
  {
    Two(ClimbBase(off, one, two)[one.key := Bare(one.key, one.symbol)],
        map[two.key := Bare(two.key, if one.key == two.key then one.symbol else "")])
  }

  function ClimbEnd(off: Op, one: Op, two: Op): Channel
    requires Climbing(off, one, two)
  {
    var last := Bare(two.key, AddPrefix(two.rank, if one.key == two.key then one.symbol else "", two.symbol));
    Two(ClimbBase(off, one, two)[one.key := Bare(one.key, one.symbol)][two.key := last], map[two.key := last])
  }

  lemma ClimbFrees(off: Op, one: Op, two: Op, over: bool)
    requires Climbing(off, one, two)
    ensures OnBoth(ClimbStart(off, one, two), off, over) == ClimbFreed(off, one, two)
    ensures Bytes(ClimbFreed(off, one, two)) == Bytes(ClimbStart(off, one, two)) - 2
  {
    var c, d := ClimbStart(off, one, two), ClimbFreed(off, one, two);
    var rest := ClimbBase(off, one, two)[off.key].prefix;
    RemoveFirst(off.symbol, rest);
    TooShort(rest, off.symbol);
    RevokeBytes(c, off, over);
    assert OnBoth(c, off, over).members == d.members;
    assert OnBoth(c, off, over).pending.value == d.pending.value;
  }

  lemma HasItself(symbol: string)
    ensures Index(symbol, symbol) >= 0
  {
  }

  lemma ClimbOne(off: Op, one: Op, two: Op)
    requires Climbing(off, one, two)
    ensures OnBoth(ClimbFreed(off, one, two), one, false) == ClimbHalf(off, one, two)
    ensures Bytes(ClimbHalf(off, one, two)) == Bytes(ClimbFreed(off, one, two)) + 1
  {
    var c, d := ClimbFreed(off, one, two), ClimbHalf(off, one, two);
    AddToNone(one.rank, one.symbol);
    HasItself(one.symbol);
    GrantBytes(c, one);
    assert OnBoth(c, one, false).members == d.members;
    assert OnBoth(c, one, false).pending.value == d.pending.value;
  }

  lemma NoneOf(a: string, b: string)
    requires |a| == 1 && b != "" && a != b
    ensures Index(a, b) < 0
  {
    assert a[1..] == "";
  }

  lemma ClimbTwoLacks(off: Op, one: Op, two: Op)
    requires Climbing(off, one, two)
    ensures var c := ClimbHalf(off, one, two);
            RosterLaws.Lacks(c.members, two) && RosterLaws.Lacks(Pending(c), two)
  {
    AddToNone(two.rank, two.symbol);
    if one.key == two.key { NoneOf(one.symbol, two.symbol); }
  }

  lemma ClimbTwoMaps(off: Op, one: Op, two: Op)
    requires Climbing(off, one, two)
    ensures OnBoth(ClimbHalf(off, one, two), two, false) == ClimbEnd(off, one, two)
  {
    var c, d := ClimbHalf(off, one, two), ClimbEnd(off, one, two);
    assert OpIn(c.members, two, false) == d.members;
    assert OpIn(c.pending.value, two, false) == d.pending.value;
  }

  lemma ClimbTwo(off: Op, one: Op, two: Op)
    requires Climbing(off, one, two)
    ensures OnBoth(ClimbHalf(off, one, two), two, false) == ClimbEnd(off, one, two)
    ensures Bytes(ClimbEnd(off, one, two)) >= Bytes(ClimbHalf(off, one, two)) + 2
  {
    ClimbTwoMaps(off, one, two);
    ClimbTwoLacks(off, one, two);
    GrantBytes(ClimbHalf(off, one, two), two);
  }

  lemma ClimbSettled(off: Op, one: Op, two: Op)
    requires Climbing(off, one, two)
    ensures Settled(ClimbEnd(off, one, two), Pair(one), Pair(two))
  {
    var d := ClimbEnd(off, one, two);
    forall op: Op | op.Revoke? && Encoded(op.symbol) && Pair(op) != Pair(one) && Pair(op) != Pair(two)
      ensures Still(d, op)
    {
      ClimbStill(off, one, two, op);
    }
  }

  lemma ClimbStill(off: Op, one: Op, two: Op, op: Op)
    requires Climbing(off, one, two) && op.Revoke? && Encoded(op.symbol)
    requires Pair(op) != Pair(one) && Pair(op) != Pair(two)
    ensures Still(ClimbEnd(off, one, two), op)
  {
    AddToNone(two.rank, two.symbol);
    if op.key == two.key {
      OtherStatusStays(two.symbol, op.symbol);
      if one.key == two.key {
        AddedBeside(two.rank, one.symbol, two.symbol);
        OtherStatusesStay(one.symbol, two.symbol, op.symbol);
      }
    } else if op.key == one.key {
      OtherStatusStays(one.symbol, op.symbol);
    }
  }

  lemma AddedBeside(rank: string, a: string, b: string)
    requires |a| == 1 && b != "" && a != b
    ensures AddPrefix(rank, a, b) == a + b || AddPrefix(rank, a, b) == b + a
  {
    NoneOf(a, b);
    var at := InsertAt(rank, a, Index(rank, b), 0);
    assert at == 0 || at == 1;
    assert a[..0] == "" && a[1..] == "" && a[..1] == a && a[0..] == a;
  }

  /** The letters between the three that matter. */
  predicate ClimbShape(ops: seq<Op>, r: nat, j: nat, x: nat)
    requires Line(ops)
  {
    && r < j < x < |ops| && Climbing(ops[r], ops[j], ops[x])
    && (forall k :: 0 <= k < r ==> ops[k].Grant?)
    && (forall k :: r < k < j ==> ops[k].Revoke?)
    && (forall k :: r < k < x && ops[k].Revoke? ==> |ops[k].symbol| == 2)
    && (forall k :: j < k < x && ops[k].Grant? ==> Pair(ops[k]) == Pair(ops[j]))
  }

  lemma WideIsStill(c: Channel, op: Op)
    requires op.Revoke? && Encoded(op.symbol) && |op.symbol| == 2
    requires op.key in c.members ==> |c.members[op.key].prefix| < 2
    requires op.key in Pending(c) ==> |Pending(c)[op.key].prefix| < 2
    ensures Still(c, op)
  {
    if op.key in c.members { TooShort(c.members[op.key].prefix, op.symbol); }
    if op.key in Pending(c) { TooShort(Pending(c)[op.key].prefix, op.symbol); }
  }

  lemma ClimbInert(ops: seq<Op>, r: nat, j: nat, x: nat, limit: int)
    requires Line(ops) && ClimbShape(ops, r, j, x) && limit <= Bytes(ClimbStart(ops[r], ops[j], ops[x]))
    ensures Inert(limit, ClimbStart(ops[r], ops[j], ops[x]), ops[0..r])
    ensures Inert(limit, ClimbFreed(ops[r], ops[j], ops[x]), ops[r + 1..j])
  {
    var d := ClimbFreed(ops[r], ops[j], ops[x]);
    forall k | r < k < j ensures Still(d, ops[k]) {
      WideIsStill(d, ops[k]);
    }
  }

  lemma ClimbHalfInert(ops: seq<Op>, r: nat, j: nat, x: nat, limit: int)
    requires Line(ops) && ClimbShape(ops, r, j, x)
    ensures Inert(limit, ClimbHalf(ops[r], ops[j], ops[x]), ops[j + 1..x])
  {
    var d := ClimbHalf(ops[r], ops[j], ops[x]);
    HasItself(ops[j].symbol);
    forall k | j < k < x ensures if ops[k].Grant? then AlreadyHas(d, ops[k]) else Still(d, ops[k]) {
      if ops[k].Revoke? { WideIsStill(d, ops[k]); }
    }
  }

  lemma ClimbToHalf(ops: seq<Op>, r: nat, j: nat, x: nat, limit: int)
    requires Line(ops) && StatusOps(ops) && ClimbShape(ops, r, j, x)
    requires limit == Bytes(ClimbStart(ops[r], ops[j], ops[x]))
    ensures Play(limit, ClimbStart(ops[r], ops[j], ops[x]), ops[..j + 1]) == ClimbHalf(ops[r], ops[j], ops[x])
    ensures Bytes(ClimbHalf(ops[r], ops[j], ops[x])) == limit - 1
  {
    var off, one, two := ops[r], ops[j], ops[x];
    var c, d := ClimbStart(off, one, two), ClimbFreed(off, one, two);
    ClimbInert(ops, r, j, x, limit);
    ClimbFrees(off, one, two, true);
    ClimbOne(off, one, two);
    ClimbPlay(ops, r, j, limit, c, d);
  }

  lemma ClimbPlay(ops: seq<Op>, r: nat, j: nat, limit: int, c: Channel, d: Channel)
    requires Line(ops) && StatusOps(ops) && r < j < |ops|
    requires Inert(limit, c, ops[0..r]) && Inert(limit, d, ops[r + 1..j])
    requires OnBoth(c, ops[r], true) == d && Bytes(c) >= limit
    ensures Play(limit, c, ops[..j + 1]) == OnBoth(d, ops[j], Bytes(d) >= limit)
  {
    assert ops[..0] == [];
    PlayOn(limit, c, ops, 0, r, c);
    PlayOn(limit, c, ops, r + 1, j, d);
  }

  /** The channels that the three letters lead through. */
  lemma Climb(ops: seq<Op>, r: nat, j: nat, x: nat) returns (c: Channel, half: Channel, end: Channel)
    requires Line(ops) && StatusOps(ops) && ClimbShape(ops, r, j, x)
    ensures Play(Bytes(c), c, ops[..j + 1]) == half && Bytes(half) == Bytes(c) - 1
    ensures Inert(Bytes(c), half, ops[j + 1..x])
    ensures OnBoth(half, ops[x], false) == end && Bytes(end) > Bytes(c)
    ensures Settled(end, Pair(ops[j]), Pair(ops[x])) && OfLine(c, ops)
  {
    ClimbOfLine(ops, r, j, x);
    var off, one, two := ops[r], ops[j], ops[x];
    c, half, end := ClimbStart(off, one, two), ClimbHalf(off, one, two), ClimbEnd(off, one, two);
    ClimbToHalf(ops, r, j, x, Bytes(c));
    ClimbHalfInert(ops, r, j, x, Bytes(c));
    ClimbTwo(off, one, two);
    ClimbSettled(off, one, two);
  }

  lemma PlayGrant(limit: int, c: Channel, ops: seq<Op>, from: nat, y: nat, d: Channel, e: Channel)
    requires Line(ops) && StatusOps(ops) && from <= y < |ops| && Bytes(d) < limit
    requires Play(limit, c, ops[..from]) == d && Inert(limit, d, ops[from..y]) && OnBoth(d, ops[y], false) == e
    ensures Play(limit, c, ops[..y + 1]) == e
  {
    PlayOn(limit, c, ops, from, y, d);
  }

  // ---- Which lines can pass -----------------------------------------------------------------------------------

  function FirstFrom(ops: seq<Op>, from: nat, p: Op -> bool): (i: nat)
    requires from <= |ops|
    ensures from <= i <= |ops| && (i < |ops| ==> p(ops[i]))
    ensures forall k :: from <= k < i ==> !p(ops[k])
    decreases |ops| - from
  {
    if from == |ops| || p(ops[from]) then from else FirstFrom(ops, from + 1, p)
  }

  /** No member's status is named twice. */
  predicate NoRepeats(ops: seq<Op>)
    requires Line(ops)
  {
    forall i, j :: 0 <= i < j < |ops| ==> Pair(ops[i]) != Pair(ops[j])
  }

  ghost predicate PassesAt(c: Channel, ops: seq<Op>, y: nat)
    requires Line(ops) && StatusOps(ops)
  {
    && y < |ops| && OfLine(c, ops) && Bytes(Play(Bytes(c), c, ops[..y + 1])) > Bytes(c)
    && (NoRepeats(ops) ==> Bytes(Play(Bytes(c), c, ops)) > Bytes(c))
  }

  /** Once past, only revocations of what was granted can bring the total back. */
  lemma StaysPast(c: Channel, ops: seq<Op>, j: nat, x: nat, d: Channel)
    requires Line(ops) && StatusOps(ops) && j <= x < |ops| && OfLine(c, ops)
    requires Play(Bytes(c), c, ops[..x + 1]) == d && Bytes(d) > Bytes(c) && Settled(d, Pair(ops[j]), Pair(ops[x]))
    ensures PassesAt(c, ops, x)
  {
    if NoRepeats(ops) {
      var tail := ops[x + 1..];
      forall k | 0 <= k < |tail| ensures tail[k].Grant? || Still(d, tail[k]) {
        assert tail[k] == ops[x + 1 + k];
      }
      InertPlay(Bytes(c), d, tail);
      PlayAppend(Bytes(c), c, ops[..x + 1], tail);
      assert ops == ops[..x + 1] + tail;
    }
  }

  lemma OvertakeOfLine(ops: seq<Op>, i: nat, y: nat)
    requires RevokeBeforeGrant(ops, i, y)
    ensures OfLine(OvertakeStart(ops[i], ops[y]), ops)
  {
    assert ops[i].key in Names(ops) && ops[y].key in Names(ops);
  }

  lemma ClimbOfLine(ops: seq<Op>, r: nat, j: nat, x: nat)
    requires r < j < x < |ops| && Climbing(ops[r], ops[j], ops[x])
    ensures OfLine(ClimbStart(ops[r], ops[j], ops[x]), ops)
  {
    assert ops[r].key in Names(ops) && ops[j].key in Names(ops) && ops[x].key in Names(ops);
  }

  lemma OvertakePasses(ops: seq<Op>, i: nat, y: nat)
    requires Line(ops) && StatusOps(ops) && RevokeBeforeGrant(ops, i, y) && |ops[i].symbol| < 2 * |ops[y].symbol|
    requires forall k :: 0 <= k < i && ops[k].Revoke? ==> |ops[k].symbol| > |ops[i].symbol|
    requires forall k :: i < k < y ==> ops[k].Revoke?
    ensures PassesAt(OvertakeStart(ops[i], ops[y]), ops, y)
  {
    Overtake(ops, i, y);
    OvertakeSettled(ops[i], ops[y]);
    OvertakeOfLine(ops, i, y);
    StaysPast(OvertakeStart(ops[i], ops[y]), ops, y, y, OvertakeEnd(ops[i], ops[y]));
  }

  lemma ClimbPasses(ops: seq<Op>, r: nat, j: nat, x: nat) returns (c: Channel)
    requires Line(ops) && StatusOps(ops) && ClimbShape(ops, r, j, x)
    ensures PassesAt(c, ops, x)
  {
    var half, end;
    c, half, end := Climb(ops, r, j, x);
    PlayGrant(Bytes(c), c, ops, j + 1, x, half, end);
    StaysPast(c, ops, j, x, end);
  }

  /** Behind the first grant `j` after a revocation: what is wide up to `x`, and grants nothing from there on. */
  lemma CannotPass(ops: seq<Op>, r: nat, j: nat, x: nat)
    requires Line(ops) && r < j < x <= |ops| && ops[j].Grant? && |ops[j].symbol| == 1
    requires forall k :: 0 <= k < r ==> ops[k].Grant?
    requires forall k :: r <= k < x && ops[k].Revoke? ==> |ops[k].symbol| == 2
    requires forall k :: r <= k < x && ops[k].Grant? ==> Pair(ops[k]) == Pair(ops[j])
    requires forall k :: x <= k < |ops| ==> ops[k].Revoke?
    ensures !CanPass(ops)
  {
    forall i: nat, k: nat | RevokeBeforeGrant(ops, i, k)
      ensures |ops[i].symbol| >= 2 * |ops[k].symbol| && !GrantsAnother(ops, i, k)
    {
      assert r <= i < k < x;
    }
  }

  /** Every line that can pass does so from some channel exactly at its ceiling. */
  lemma Passes(ops: seq<Op>) returns (c: Channel, y: nat)
    requires Line(ops) && StatusOps(ops)
    ensures CanPass(ops) ==> PassesAt(c, ops, y)
  {
    c, y := Two(map[], map[]), 0;
    var r := FirstFrom(ops, 0, (op: Op) => op.Revoke?);
    if r < |ops| {
      var j := FirstFrom(ops, r + 1, (op: Op) => op.Grant?);
      if j < |ops| {
        c, y := PassesFrom(ops, r, j);
      }
    }
  }

  lemma PassesFrom(ops: seq<Op>, r: nat, j: nat) returns (c: Channel, y: nat)
    requires Line(ops) && StatusOps(ops) && RevokeBeforeGrant(ops, r, j)
    requires forall k :: 0 <= k < r ==> ops[k].Grant?
    requires forall k :: r < k < j ==> ops[k].Revoke?
    ensures CanPass(ops) ==> PassesAt(c, ops, y)
  {
    var i := FirstFrom(ops, r, (op: Op) => op.Revoke? && |op.symbol| < 2 * |ops[j].symbol|);
    if i < j {
      OvertakePasses(ops, i, j);
      c, y := OvertakeStart(ops[i], ops[j]), j;
    } else {
      forall k | r <= k < j ensures |ops[k].symbol| == 2 {
      }
      c, y := PassesLater(ops, r, j);
    }
  }

  lemma PassesLater(ops: seq<Op>, r: nat, j: nat) returns (c: Channel, y: nat)
    requires Line(ops) && StatusOps(ops) && RevokeBeforeGrant(ops, r, j) && |ops[j].symbol| == 1
    requires forall k :: 0 <= k < r ==> ops[k].Grant?
    requires forall k :: r <= k < j ==> ops[k].Revoke? && |ops[k].symbol| == 2
    ensures CanPass(ops) ==> PassesAt(c, ops, y)
  {
    var x := FirstFrom(ops, j + 1,
                       (op: Op) => (op.Grant? && Pair(op) != Pair(ops[j])) || (op.Revoke? && |op.symbol| == 1));
    if x < |ops| && ops[x].Grant? {
      c := ClimbPasses(ops, r, j, x);
      y := x;
    } else {
      y := if x < |ops| then FirstFrom(ops, x + 1, (op: Op) => op.Grant?) else x;
      if y < |ops| {
        OvertakePasses(ops, x, y);
        c := OvertakeStart(ops[x], ops[y]);
      } else {
        CannotPass(ops, r, j, x);
        c := Two(map[], map[]);
      }
    }
  }

  // ---- The ceiling over a whole line --------------------------------------------------------------------------

  ghost predicate Kept(env: Env, s: State, ck: string, ops: seq<Op>)
    requires StatusOps(ops)
  {
    TotalBytes(OnMode(env, s, ck, ops)) <= TotalBytes(s)
  }

  /** At or over the ceiling the line never takes the total above where it was, at any letter. */
  ghost predicate KeptThroughout(ops: seq<Op>)
    requires StatusOps(ops)
  {
    forall env, s, ck, n: nat :: Over(env, s) && n <= |ops| ==> Kept(env, s, ck, ops[..n])
  }

  /** At or over the ceiling the line does not leave the total above where it was. */
  ghost predicate KeptAtEnd(ops: seq<Op>)
    requires StatusOps(ops)
  {
    forall env, s, ck :: Over(env, s) ==> Kept(env, s, ck, ops)
  }

  lemma LineKeeps(env: Env, s: State, ck: string, ops: seq<Op>)
    requires Line(ops) && StatusOps(ops) && !CanPass(ops) && Over(env, s)
    ensures Kept(env, s, ck, ops)
  {
    if ck in s {
      ModeIsPlay(env, s, ck, ops);
      KeptUnlessCanPass(Share(env, s, ck), s[ck], ops);
    }
  }

  /** As `KeptThroughout`, over the rosters that meet the roster's own invariant. */
  ghost predicate KeptInRosters(cm: CaseMapping, ops: seq<Op>)
    requires StatusOps(ops)
  {
    forall env: Env, s, ck, n: nat :: env.cm == cm && RosterLaws.Inv(env, s) && Over(env, s) && n <= |ops|
      ==> Kept(env, s, ck, ops[..n])
  }

  ghost predicate KeptAtEndInRosters(cm: CaseMapping, ops: seq<Op>)
    requires StatusOps(ops)
  {
    forall env: Env, s, ck :: env.cm == cm && RosterLaws.Inv(env, s) && Over(env, s) ==> Kept(env, s, ck, ops)
  }

  lemma OfLineIsKeyed(cm: CaseMapping, c: Channel, ops: seq<Op>)
    requires OfLine(c, ops) && FoldedKeys(cm, ops)
    ensures RosterLaws.ChannelKeyed(cm, "#", c)
  {
    assert FoldChar(cm, '#') == '#';
    assert Fold(cm, "#") == "#";
  }

  lemma OnlyChannel(c: Channel)
    ensures var s := map["#" := c]; TotalBytes(s) == Bytes(c) >= 0 && TotalMembers(s) == |c.members| + |Pending(c)|
  {
    var none: State := map[];
    SumUpdated(none, Weight, "#", c);
    SumUpdated(none, Held, "#", c);
    assert none["#" := c] == map["#" := c];
    SumNonNegative(c.members, MemberBytes);
    SumNonNegative(Pending(c), MemberBytes);
  }

  /** A ceiling exactly at a channel's bytes, with limits that admit the channel. */
  ghost function Tight(cm: CaseMapping, c: Channel): Env
    requires Bytes(c) >= 0
  {
    var members := |c.members| + |Pending(c)|;
    Env(cm, Modes("", "", ["", "", "", ""]), Limits(1, members, members, Bytes(c)))
  }

  lemma TightMeetsInv(cm: CaseMapping, c: Channel, line: seq<Op>)
    requires Bytes(c) >= 0 && OfLine(c, line) && FoldedKeys(cm, line)
    ensures RosterLaws.Inv(Tight(cm, c), map["#" := c])
  {
    OnlyChannel(c);
    OfLineIsKeyed(cm, c, line);
  }

  lemma TightPlays(env: Env, c: Channel, s: State, ops: seq<Op>)
    requires StatusOps(ops) && s == map["#" := c] && env.limits.bytes == Bytes(c)
    ensures Over(env, s) && (Bytes(Play(Bytes(c), c, ops)) > Bytes(c) ==> !Kept(env, s, "#", ops))
  {
    OnlyChannel(c);
    ModeIsPlay(env, s, "#", ops);
  }

  /** A channel on its own, with the ceiling exactly at its bytes. */
  lemma Alone(cm: CaseMapping, c: Channel, line: seq<Op>, ops: seq<Op>) returns (env: Env, s: State)
    requires StatusOps(ops) && OfLine(c, line)
    ensures Over(env, s) && env.cm == cm && (FoldedKeys(cm, line) ==> RosterLaws.Inv(env, s))
    ensures Bytes(Play(Bytes(c), c, ops)) > Bytes(c) ==> !Kept(env, s, "#", ops)
  {
    OnlyChannel(c);
    env, s := Tight(cm, c), map["#" := c];
    if FoldedKeys(cm, line) { TightMeetsInv(cm, c, line); }
    TightPlays(env, c, s, ops);
  }

  /** Exactly which lines keep the ceiling at every letter, whatever the channel, the roster and the ceiling:
      those in which no revocation is followed by a grant more than half as wide or by grants of two
      different statuses.  For a line as a MODE message gives it, with folded keys, the same holds over the rosters
      that meet the roster's invariant. */
  lemma LineKeepsCeilingIff(cm: CaseMapping, ops: seq<Op>)
    requires Line(ops) && StatusOps(ops)
    ensures KeptThroughout(ops) <==> !CanPass(ops)
    ensures FoldedKeys(cm, ops) ==> (KeptInRosters(cm, ops) <==> !CanPass(ops))
  {
    if CanPass(ops) {
      var c, y := Passes(ops);
      var env, s := Alone(cm, c, ops, ops[..y + 1]);
      assert !Kept(env, s, "#", ops[..y + 1]);
    } else {
      forall env, s, ck, n: nat | Over(env, s) && n <= |ops| ensures Kept(env, s, ck, ops[..n]) {
        if CanPass(ops[..n]) { CanPassPrefix(ops, n); }
        LineKeeps(env, s, ck, ops[..n]);
      }
    }
  }

  /** The same condition decides where the line ends up, when it names no member's status twice. */
  lemma LineEndsWithinCeilingIff(cm: CaseMapping, ops: seq<Op>)
    requires Line(ops) && StatusOps(ops)
    ensures !CanPass(ops) ==> KeptAtEnd(ops)
    ensures NoRepeats(ops) ==> (KeptAtEnd(ops) <==> !CanPass(ops))
    ensures NoRepeats(ops) && FoldedKeys(cm, ops) ==> (KeptAtEndInRosters(cm, ops) <==> !CanPass(ops))
  {
    if CanPass(ops) {
      var c, y := Passes(ops);
      var env, s := Alone(cm, c, ops, ops);
      assert NoRepeats(ops) ==> !Kept(env, s, "#", ops);
    } else {
      forall env, s, ck | Over(env, s) ensures Kept(env, s, ck, ops) {
        LineKeeps(env, s, ck, ops);
      }
    }
  }

  /** A MODE message as the line it carries. */
  lemma ModeMessage(env: Env, ourNick: string, s: State, msg: Message) returns (ops: seq<Op>)
    requires WellFormed(env.modes) && msg.Mode?
    ensures ops == ModeOps(env, msg.letters, true, msg.args, 0) && Line(ops) && StatusOps(ops) && FoldedKeys(env.cm, ops)
    ensures React(env, ourNick, s, msg) == OnMode(env, s, Key(env, msg.channel), ops)
  {
    ops := ModeOps(env, msg.letters, true, msg.args, 0);
    ModeOpsIsLine(env, msg.letters, true, msg.args, 0);
    RosterLaws.ModeReaction(env, ourNick, s, msg.channel, msg.letters, msg.args, Key(env, msg.channel), ops);
  }

  /** The byte ceiling over every message: at or over it the total increases only for a JOIN that rewrites
      both maps upward, and for a MODE line that can pass. */
  lemma CeilingHolds(env: Env, ourNick: string, s: State, msg: Message)
    requires WellFormed(env.modes) && Over(env, s)
    ensures TotalBytes(React(env, ourNick, s, msg)) > TotalBytes(s) ==>
            if msg.Mode? then
              var ops := ModeOps(env, msg.letters, true, msg.args, 0); Line(ops) && CanPass(ops)
            else msg.Join? && RosterLaws.JoinGrows(env, s, Clamp(msg.channel), JoinMember(msg))
  {
    if msg.Mode? {
      var ops := ModeMessage(env, ourNick, s, msg);
      if !CanPass(ops) { LineKeeps(env, s, Key(env, msg.channel), ops); }
    } else {
      RosterLaws.GrowsOverCeilingIff(env, ourNick, s, msg);
    }
  }
}
