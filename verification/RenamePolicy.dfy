/** Renaming a network across the synced ignore, mute and highlight policy, and the map that lets a write based on old
    names still mean the same. */
module RenamePolicy {
  import opened Wrappers
  import opened Text
  import opened Casemap
  import opened Ordering

  const MAX_RENAMES := 128
  const MAX_IGNORES := 512
  const MAX_NICK := 128
  const MAX_MUTE_KEY := 1024

  /** What network-name validation leaves possible: nonempty and free of control characters, so of newlines. */
  predicate ValidName(name: string) {
    name != "" && '\n' !in name
  }

  function Lower(s: string): string {
    Fold(Ascii, s)
  }

  // ---- Decisions ------------------------------------------------------------------------------------------------

  type Ignores = map<string, seq<string>>

  datatype Filters = Filters(ignores: Ignores, mutes: seq<string>)

  datatype Rule = Rule(pattern: string, network: string)

  function MuteKey(network: string, buffer: string): string {
    network + "\n" + buffer
  }

  predicate Ignored(d: Ignores, network: string, sender: string) {
    network in d && exists n :: n in d[network] && Lower(n) == Lower(sender)
  }

  /** pushFilters.drops: is this message filtered out? */
  predicate Drops(d: Filters, network: string, buffer: string, sender: string) {
    MuteKey(network, buffer) in d.mutes || (sender != "" && Ignored(d.ignores, network, sender))
  }

  /** highlightText's rule scan: some nonblank rule, global or of this network, hits the text. */
  predicate Highlights(rules: seq<Rule>, network: string, hit: string -> bool) {
    exists i :: 0 <= i < |rules| && RuleHits(rules[i], network, hit)
  }

  predicate RuleHits(r: Rule, network: string, hit: string -> bool) {
    TrimSpace(r.pattern) != "" && (r.network == "" || r.network == network) && hit(TrimSpace(r.pattern))
  }

  // ---- Renaming once ----------------------------------------------------------------------------------------------

  datatype Rename = Rename(before: string, now: string)

  predicate ValidRename(r: Rename) {
    ValidName(r.before) && ValidName(r.now) && r.before != r.now
  }

  function Renamed(r: Rename, name: string): string {
    if name == r.before then r.now else name
  }

  function RewriteRules(rules: seq<Rule>, r: Rename): seq<Rule> {
    seq(|rules|, i requires 0 <= i < |rules| => rules[i].(network := Renamed(r, rules[i].network)))
  }

  function RewriteMute(key: string, r: Rename): string {
    if r.before + "\n" <= key then r.now + "\n" + key[|r.before| + 1..] else key
  }

  function RewriteMutes(mutes: seq<string>, r: Rename): seq<string> {
    seq(|mutes|, i requires 0 <= i < |mutes| => RewriteMute(mutes[i], r))
  }

  /** appendUnseen, with the entries of `dst` as the ones seen. */
  function AppendUnseen(dst: seq<string>, src: seq<string>): seq<string>
    decreases |src|
  {
    if src == [] then dst else AppendUnseen(if src[0] in dst then dst else dst + [src[0]], src[1..])
  }

  function ListOf(d: Ignores, network: string): seq<string> {
    if network in d then d[network] else []
  }

  /** The ignore lists of both names as one list without repeats. */
  function MergedIgnores(d: Ignores, r: Rename): seq<string> {
    AppendUnseen(AppendUnseen([], ListOf(d - {r.before}, r.now)), ListOf(d, r.before))
  }

  /** rewriteFilterRefs: None when the merged ignore list would be over its cap. */
  function RewriteFilters(d: Filters, r: Rename): Option<Filters> {
    if r.before in d.ignores then
      var merged := MergedIgnores(d.ignores, r);
      if |merged| > MAX_IGNORES then None
      else Some(Filters((d.ignores - {r.before})[r.now := merged], RewriteMutes(d.mutes, r)))
    else Some(Filters(d.ignores, RewriteMutes(d.mutes, r)))
  }

  // ---- Splitting a mute key at its first newline is unambiguous ------------------------------------------------------

  lemma {:induction false} MuteKeyInjective(a: string, b: string, c: string, e: string)
    requires '\n' !in a && '\n' !in c && MuteKey(a, b) == MuteKey(c, e)
    ensures a == c && b == e
    decreases |a|
  {
    var key := MuteKey(a, b);
    assert key[0] == if a == "" then '\n' else a[0];
    assert key[0] == if c == "" then '\n' else c[0];
    if a == "" {
      assert key[1..] == b;
    } else {
      assert key[1..] == MuteKey(a[1..], b) == MuteKey(c[1..], e);
      MuteKeyInjective(a[1..], b, c[1..], e);
      assert a == [a[0]] + a[1..] && c == [c[0]] + c[1..];
    }
  }

  /** A mute key with its network sent through a renaming function. */
  function RouteMute(key: string, to: string -> string): string {
    match Cut(key, '\n')
    case None => key
    case Some((network, buffer)) => MuteKey(to(network), buffer)
  }

  lemma RewriteMuteRoutes(key: string, r: Rename)
    requires ValidRename(r)
    ensures RewriteMute(key, r) == RouteMute(key, x => Renamed(r, x))
  {
    var cut := Cut(key, '\n');
    var prefix := r.before + "\n";
    if prefix <= key {
      var rest := key[|prefix|..];
      assert key == prefix + rest;
      assert key == MuteKey(r.before, rest);
      assert key[|r.before|] == '\n';
      MuteKeyInjective(r.before, rest, cut.value.0, cut.value.1);
    } else {
      assert cut.Some? ==> key == cut.value.0 + "\n" + cut.value.1;
    }
  }

  /** Newline-free names stay newline-free. */
  ghost predicate KeepsNames(to: string -> string) {
    forall x :: '\n' !in x ==> '\n' !in to(x)
  }

  lemma RoutedMutes(mutes: seq<string>, routed: seq<string>, to: string -> string, network: string, buffer: string)
    requires KeepsNames(to) && '\n' !in network
    requires |routed| == |mutes| && forall i :: 0 <= i < |mutes| ==> routed[i] == RouteMute(mutes[i], to)
    ensures MuteKey(network, buffer) in routed
            <==> exists x :: '\n' !in x && to(x) == network && MuteKey(x, buffer) in mutes
  {
    var key := MuteKey(network, buffer);
    if key in routed {
      var i :| 0 <= i < |routed| && routed[i] == key;
      assert key[|network|] == '\n';
      var cut := Cut(mutes[i], '\n');
      assert cut.Some?;
      var x := cut.value.0;
      MuteKeyInjective(to(x), cut.value.1, network, buffer);
      assert MuteKey(x, buffer) == mutes[i];
    }
    if x :| '\n' !in x && to(x) == network && MuteKey(x, buffer) in mutes {
      var i :| 0 <= i < |mutes| && mutes[i] == MuteKey(x, buffer);
      assert mutes[i][|x|] == '\n';
      var cut := Cut(mutes[i], '\n');
      MuteKeyInjective(x, buffer, cut.value.0, cut.value.1);
      assert routed[i] == key;
    }
  }

  // ---- Decisions follow the names ------------------------------------------------------------------------------

  /** Every decision for a name is the disjunction of the earlier decisions for the names that lead to it. */
  ghost predicate Routed(d: Filters, e: Filters, to: string -> string) {
    forall network, buffer, sender :: '\n' !in network ==>
      (Drops(e, network, buffer, sender)
       <==> exists x :: '\n' !in x && to(x) == network && Drops(d, x, buffer, sender))
  }

  lemma {:induction false} AppendUnseenHas(dst: seq<string>, src: seq<string>)
    ensures forall n :: n in AppendUnseen(dst, src) <==> n in dst || n in src
    decreases |src|
  {
    if src != [] {
      AppendUnseenHas(if src[0] in dst then dst else dst + [src[0]], src[1..]);
      assert src == [src[0]] + src[1..];
    }
  }

  lemma {:induction false} AppendUnseenDistinct(dst: seq<string>, src: seq<string>)
    requires Distinct(dst)
    ensures Distinct(AppendUnseen(dst, src))
    decreases |src|
  {
    if src != [] { AppendUnseenDistinct(if src[0] in dst then dst else dst + [src[0]], src[1..]); }
  }

  lemma RewriteIgnored(d: Filters, r: Rename, network: string, sender: string)
    requires ValidRename(r) && RewriteFilters(d, r).Some?
    ensures Ignored(RewriteFilters(d, r).value.ignores, network, sender)
            <==> (network != r.before && Ignored(d.ignores, network, sender))
                 || (network == r.now && Ignored(d.ignores, r.before, sender))
  {
    if r.before in d.ignores {
      var present := ListOf(d.ignores - {r.before}, r.now);
      AppendUnseenHas([], present);
      AppendUnseenHas(AppendUnseen([], present), ListOf(d.ignores, r.before));
    }
  }

  lemma RewriteRoutes(d: Filters, r: Rename)
    requires ValidRename(r) && RewriteFilters(d, r).Some?
    ensures Routed(d, RewriteFilters(d, r).value, x => Renamed(r, x))
  {
    var e := RewriteFilters(d, r).value;
    var to := x => Renamed(r, x);
    forall network, buffer, sender | '\n' !in network
      ensures Drops(e, network, buffer, sender)
              <==> exists x :: '\n' !in x && to(x) == network && Drops(d, x, buffer, sender)
    {
      forall i | 0 <= i < |d.mutes| ensures e.mutes[i] == RouteMute(d.mutes[i], to) { RewriteMuteRoutes(d.mutes[i], r); }
      RoutedMutes(d.mutes, e.mutes, to, network, buffer);
      RewriteIgnored(d, r, network, sender);
      assert Drops(d, network, buffer, sender) ==> to(network) == if network == r.before then r.now else network;
      assert to(r.before) == r.now;
    }
  }

  /** Renaming preserves what the filters mean: the new name drops what either name dropped, the old name drops nothing,
      and every other network is as before. */
  lemma RenamePreservesDrops(d: Filters, r: Rename, other: string, buffer: string, sender: string)
    requires ValidRename(r) && RewriteFilters(d, r).Some? && ValidName(other) && other != r.before && other != r.now
    ensures Drops(RewriteFilters(d, r).value, r.now, buffer, sender)
            <==> Drops(d, r.before, buffer, sender) || Drops(d, r.now, buffer, sender)
    ensures !Drops(RewriteFilters(d, r).value, r.before, buffer, sender)
    ensures Drops(RewriteFilters(d, r).value, other, buffer, sender) <==> Drops(d, other, buffer, sender)
  {
    RewriteRoutes(d, r);
    var to := x => Renamed(r, x);
    assert to(r.before) == r.now && to(r.now) == r.now && to(other) == other;
    assert forall x :: to(x) == r.now ==> x == r.before || x == r.now;
    assert forall x :: to(x) == other ==> x == other;
    assert forall x :: to(x) != r.before;
  }

  lemma RenamePreservesHighlights(rules: seq<Rule>, r: Rename, other: string, hit: string -> bool)
    requires ValidRename(r) && ValidName(other) && other != r.before && other != r.now
    ensures Highlights(RewriteRules(rules, r), r.now, hit)
            <==> Highlights(rules, r.before, hit) || Highlights(rules, r.now, hit)
    ensures Highlights(RewriteRules(rules, r), other, hit) <==> Highlights(rules, other, hit)
  {
    var after := RewriteRules(rules, r);
    assert forall i :: 0 <= i < |rules| ==>
      (RuleHits(after[i], r.now, hit) <==> RuleHits(rules[i], r.before, hit) || RuleHits(rules[i], r.now, hit));
    assert forall i :: 0 <= i < |rules| ==> (RuleHits(after[i], other, hit) <==> RuleHits(rules[i], other, hit));
  }

  /** A rename is refused only when the distinct ignored nicks of both names are more than the cap. */
  lemma RenameRefusedIff(d: Filters, r: Rename)
    ensures RewriteFilters(d, r).None?
            <==> r.before in d.ignores
                 && |Elements(ListOf(d.ignores - {r.before}, r.now)) + Elements(d.ignores[r.before])| > MAX_IGNORES
  {
    if r.before in d.ignores {
      var present := ListOf(d.ignores - {r.before}, r.now);
      var merged := MergedIgnores(d.ignores, r);
      AppendUnseenHas([], present);
      AppendUnseenHas(AppendUnseen([], present), d.ignores[r.before]);
      AppendUnseenDistinct([], present);
      AppendUnseenDistinct(AppendUnseen([], present), d.ignores[r.before]);
      DistinctCount(merged);
      assert Elements(present) + Elements(d.ignores[r.before]) == Elements(merged);
    }
  }

  // ---- The rename map ----------------------------------------------------------------------------------------------

  type Renames = map<string, string>

  /** resolveRenamed: one lookup. */
  function Resolve(m: Renames, name: string): string {
    if name in m then m[name] else name
  }

  function Followed(m: Renames, r: Rename): (f: Renames)
    ensures f.Keys == m.Keys - {r.now}
  {
    map k | k in m && k != r.now :: Renamed(r, m[k])
  }

  /** foldRenameMap: entries leading to the old name follow it, the new name stops being old, and a full map is started
      over with the current rename. */
  function FoldRename(m: Renames, r: Rename): Renames {
    var followed := Followed(m, r);
    (if |followed| >= MAX_RENAMES then map[] else followed)[r.before := r.now]
  }

  /** No name is both old and current, so one lookup is final. */
  predicate Flat(m: Renames) {
    forall k, j :: k in m && j in m ==> m[k] != j
  }

  lemma FoldStaysFlat(m: Renames, r: Rename)
    requires Flat(m) && r.before != r.now
    ensures Flat(FoldRename(m, r))
  {
  }

  lemma LookupIsFinal(m: Renames, name: string)
    requires Flat(m)
    ensures Resolve(m, Resolve(m, name)) == Resolve(m, name)
  {
  }

  /** Following the renames one at a time. */
  function Chase(renames: seq<Rename>, name: string): string
    decreases |renames|
  {
    if renames == [] then name else Chase(renames[1..], Renamed(renames[0], name))
  }

  function FoldAll(m: Renames, renames: seq<Rename>): Renames
    decreases |renames|
  {
    if renames == [] then m else FoldAll(FoldRename(m, renames[0]), renames[1..])
  }

  /** One lookup answers like following the renames. */
  ghost predicate Tracks(m: Renames, renames: seq<Rename>) {
    forall name :: Resolve(FoldAll(m, renames), name) == Chase(renames, Resolve(m, name))
  }

  ghost predicate TracksOne(m: Renames, r: Rename) {
    forall name :: Resolve(FoldRename(m, r), name) == Renamed(r, Resolve(m, name))
  }

  /** Neither name is an old one, unless the rename undoes or repeats the one recorded for it, and the map has
      room. */
  predicate CleanStep(m: Renames, r: Rename) {
    && (r.before in m ==> m[r.before] == r.now)
    && (r.now in m ==> m[r.now] == r.before)
    && |m - {r.now}| < MAX_RENAMES
  }

  lemma FollowedSize(m: Renames, r: Rename)
    ensures |Followed(m, r)| == |m - {r.now}|
    ensures r.now !in m ==> |m - {r.now}| == |m|
  {
    var f, g := Followed(m, r), m - {r.now};
    assert f.Keys == g.Keys;
    assert |f| == |f.Keys| && |g| == |g.Keys| && |m| == |m.Keys|;
    assert r.now !in m ==> g.Keys == m.Keys;
  }

  /** A full map forgets every old name but the one just recorded. */
  lemma SaturationForgets(m: Renames, r: Rename, name: string)
    requires Flat(m) && r.before != r.now && |m - {r.now}| >= MAX_RENAMES
    requires name in m && name != r.before && name != r.now
    ensures Resolve(FoldRename(m, r), name) == name != Renamed(r, Resolve(m, name))
  {
    FollowedSize(m, r);
  }

  lemma Another(m: Renames, r: Rename) returns (name: string)
    requires |m - {r.now}| >= 2
    ensures name in m && name != r.before && name != r.now
  {
    var left := m.Keys - {r.now} - {r.before};
    assert m.Keys - {r.now} == (m - {r.now}).Keys;
    assert left != {};
    name :| name in left;
  }

  /** Below the bound only the two names of the rename can be answered differently. */
  lemma FoldedAnswers(m: Renames, r: Rename, name: string)
    requires r.before != r.now && |m - {r.now}| < MAX_RENAMES
    ensures Resolve(FoldRename(m, r), name) ==
            if name == r.before then r.now else if name == r.now then r.now else Renamed(r, Resolve(m, name))
  {
    FollowedSize(m, r);
  }

  /** Exactly when folding one rename keeps the map answering for it, whatever the names. */
  lemma FoldTracksIff(m: Renames, r: Rename)
    requires Flat(m) && r.before != r.now
    ensures TracksOne(m, r) <==> CleanStep(m, r)
  {
    if |m - {r.now}| >= MAX_RENAMES {
      var name := Another(m, r);
      SaturationForgets(m, r, name);
    } else {
      FoldedAnswers(m, r, r.before);
      FoldedAnswers(m, r, r.now);
      if CleanStep(m, r) {
        forall name ensures Resolve(FoldRename(m, r), name) == Renamed(r, Resolve(m, name)) {
          FoldedAnswers(m, r, name);
        }
      }
    }
  }

  predicate CleanChain(m: Renames, renames: seq<Rename>)
    decreases |renames|
  {
    renames == [] || (CleanStep(m, renames[0]) && CleanChain(FoldRename(m, renames[0]), renames[1..]))
  }

  predicate Moves(renames: seq<Rename>) {
    forall i :: 0 <= i < |renames| ==> renames[i].before != renames[i].now
  }

  lemma TracksRest(m: Renames, renames: seq<Rename>)
    requires renames != [] && TracksOne(m, renames[0])
    ensures Tracks(m, renames) <==> Tracks(FoldRename(m, renames[0]), renames[1..])
  {
    var next := FoldRename(m, renames[0]);
    assert forall name :: Resolve(next, name) == Renamed(renames[0], Resolve(m, name));
    assert forall name ::
      Chase(renames, Resolve(m, name)) == Chase(renames[1..], Renamed(renames[0], Resolve(m, name)));
    assert FoldAll(m, renames) == FoldAll(next, renames[1..]);
  }

  ghost predicate TracksThroughout(m: Renames, renames: seq<Rename>) {
    forall n: nat :: n <= |renames| ==> Tracks(m, renames[..n])
  }

  lemma TracksFirst(m: Renames, renames: seq<Rename>)
    requires renames != []
    ensures Tracks(m, renames[..1]) <==> TracksOne(m, renames[0])
  {
    var one := renames[..1];
    assert one == [renames[0]] && one[1..] == [];
    assert FoldAll(m, one) == FoldRename(m, renames[0]);
    assert forall name :: Chase(one, name) == Renamed(renames[0], name);
  }

  lemma ThroughoutRest(m: Renames, renames: seq<Rename>)
    requires renames != [] && TracksOne(m, renames[0])
    ensures TracksThroughout(m, renames) <==> TracksThroughout(FoldRename(m, renames[0]), renames[1..])
  {
    var next, rest := FoldRename(m, renames[0]), renames[1..];
    forall n: nat | n < |renames| ensures Tracks(m, renames[..n + 1]) <==> Tracks(next, rest[..n]) {
      assert renames[..n + 1][1..] == rest[..n] && renames[..n + 1][0] == renames[0];
      TracksRest(m, renames[..n + 1]);
    }
    if TracksThroughout(next, rest) {
      forall n: nat | n <= |renames| ensures Tracks(m, renames[..n]) {
        if n == 0 { assert renames[..0] == []; } else { assert Tracks(next, rest[..n - 1]); }
      }
    }
    if TracksThroughout(m, renames) {
      forall n: nat | n <= |rest| ensures Tracks(next, rest[..n]) { assert Tracks(m, renames[..n + 1]); }
    }
  }

  /** For every history: one lookup answers like following the renames, after each of them, exactly when every
      step is clean. */
  lemma {:induction false} ChainTracksIff(m: Renames, renames: seq<Rename>)
    requires Flat(m) && Moves(renames)
    ensures TracksThroughout(m, renames) <==> CleanChain(m, renames)
    decreases |renames|
  {
    if renames == [] {
      assert forall n: nat :: n <= |renames| ==> renames[..n] == [];
    } else {
      FoldTracksIff(m, renames[0]);
      TracksFirst(m, renames);
      FoldStaysFlat(m, renames[0]);
      if TracksOne(m, renames[0]) {
        ThroughoutRest(m, renames);
        ChainTracksIff(FoldRename(m, renames[0]), renames[1..]);
      }
    }
  }

  /** Every rename is of a name not given up before, to a name not given up before. */
  predicate FreshNames(olds: set<string>, renames: seq<Rename>)
    decreases |renames|
  {
    renames == [] ||
    var r := renames[0];
    r.before != r.now && r.before !in olds && r.now !in olds && FreshNames(olds + {r.before}, renames[1..])
  }

  lemma {:induction false} FreshNamesMove(olds: set<string>, renames: seq<Rename>)
    requires FreshNames(olds, renames)
    ensures Moves(renames)
    decreases |renames|
  {
    if renames != [] {
      FreshNamesMove(olds + {renames[0].before}, renames[1..]);
      assert forall i :: 0 < i < |renames| ==> renames[i] == renames[1..][i - 1];
    }
  }

  /** A forgotten old name is never recorded again, and no chain of fresh names leads back to it. */
  lemma {:induction false} ForgottenStays(olds: set<string>, m: Renames, renames: seq<Rename>, name: string, other: string)
    requires FreshNames(olds, renames) && name in olds && name !in m && other != name
    ensures name !in FoldAll(m, renames) && Chase(renames, other) != name
    decreases |renames|
  {
    if renames != [] {
      var r := renames[0];
      ForgottenStays(olds + {r.before}, FoldRename(m, r), renames[1..], name, Renamed(r, other));
    }
  }

  lemma FreshIsClean(m: Renames, r: Rename)
    requires r.before !in m && r.now !in m && |m| < MAX_RENAMES
    ensures CleanStep(m, r)
  {
    FollowedSize(m, r);
  }

  lemma FreshGrows(m: Renames, r: Rename)
    requires r.before !in m && r.now !in m && |m| < MAX_RENAMES
    ensures FoldRename(m, r).Keys == m.Keys + {r.before} && |FoldRename(m, r)| == |m| + 1
  {
    FollowedSize(m, r);
    Recorded(Followed(m, r), r);
  }

  lemma Recorded(m: Renames, r: Rename)
    requires r.before !in m
    ensures m[r.before := r.now].Keys == m.Keys + {r.before} && |m[r.before := r.now]| == |m| + 1
  {
    var next := m[r.before := r.now];
    assert next.Keys == m.Keys + {r.before};
    assert |next| == |next.Keys| && |m| == |m.Keys|;
  }

  /** From fresh names, one lookup answers for the whole chain exactly while the map has room for it. */
  lemma {:induction false} FreshChainTracksIff(m: Renames, renames: seq<Rename>)
    requires Flat(m) && |m| <= MAX_RENAMES && FreshNames(m.Keys, renames)
    ensures Tracks(m, renames) <==> renames == [] || |m| + |renames| <= MAX_RENAMES
    decreases |renames|
  {
    if renames != [] {
      var r := renames[0];
      FoldTracksIff(m, r);
      FoldStaysFlat(m, r);
      if |m| < MAX_RENAMES {
        FreshIsClean(m, r);
        FreshGrows(m, r);
        TracksRest(m, renames);
        FreshChainTracksIff(FoldRename(m, r), renames[1..]);
      } else {
        FullChainForgets(m, renames);
      }
    }
  }

  lemma FullChainForgets(m: Renames, renames: seq<Rename>)
    requires Flat(m) && |m| == MAX_RENAMES && FreshNames(m.Keys, renames) && renames != []
    ensures !Tracks(m, renames)
  {
    var r := renames[0];
    assert m - {r.now} == m;
    var name := Another(m, r);
    SaturationForgets(m, r, name);
    var next := FoldRename(m, r);
    ForgottenStays(m.Keys + {r.before}, next, renames[1..], name, Renamed(r, m[name]));
    assert Resolve(FoldAll(m, renames), name) != Chase(renames, Resolve(m, name));
  }

  function LongName(i: nat): string {
    seq(i + 1, _ => 'a')
  }

  /** A network renamed `n` times, each time to a longer name. */
  function LongHistory(from: nat, n: nat): seq<Rename> {
    seq(n, i requires 0 <= i < n => Rename(LongName(from + i), LongName(from + i + 1)))
  }

  lemma {:induction false} LongHistoryFresh(olds: set<string>, from: nat, n: nat)
    requires forall x :: x in olds ==> |x| <= from
    ensures FreshNames(olds, LongHistory(from, n))
    decreases n
  {
    if n > 0 {
      assert |LongName(from)| == from + 1 && |LongName(from + 1)| == from + 2;
      assert LongHistory(from, n)[1..] == LongHistory(from + 1, n - 1);
      LongHistoryFresh(olds + {LongName(from)}, from + 1, n - 1);
    }
  }

  /** The bound is met in practice: 128 renames of one network still resolve in one lookup, 129 do not. */
  lemma LongHistoryForgets(n: nat)
    ensures Tracks(map[], LongHistory(0, n)) <==> n <= MAX_RENAMES
  {
    LongHistoryFresh({}, 0, n);
    var none: Renames := map[];
    assert none.Keys == {};
    FreshChainTracksIff(none, LongHistory(0, n));
  }

  /** What happens to the stored map: renames, and dropping an entry when its old name is taken again. */
  datatype Edit = Move(r: Rename) | Clear(name: string)

  function EditAll(m: Renames, edits: seq<Edit>): Renames
    decreases |edits|
  {
    if edits == [] then m
    else EditAll(if edits[0].Move? then FoldRename(m, edits[0].r) else m - {edits[0].name}, edits[1..])
  }

  /** Old and current names stay disjoint over every history of the map, saturation included. */
  lemma {:induction false} MapAlwaysFlat(m: Renames, edits: seq<Edit>)
    requires Flat(m) && forall i :: 0 <= i < |edits| && edits[i].Move? ==> edits[i].r.before != edits[i].r.now
    ensures Flat(EditAll(m, edits))
    decreases |edits|
  {
    if edits != [] {
      if edits[0].Move? { FoldStaysFlat(m, edits[0].r); }
      MapAlwaysFlat(if edits[0].Move? then FoldRename(m, edits[0].r) else m - {edits[0].name}, edits[1..]);
    }
  }

  // ---- Writes based on old names -------------------------------------------------------------------------------

  function CanonMute(key: string, m: Renames): string {
    RouteMute(key, x => Resolve(m, x))
  }

  function CanonMutes(mutes: seq<string>, m: Renames): seq<string> {
    if mutes == [] then []
    else (if mutes[0] == "" then [] else [CanonMute(mutes[0], m)]) + CanonMutes(mutes[1..], m)
  }

  method ResolveMute(key: string, m: Renames) returns (r: string)
    ensures r == CanonMute(key, m)
  {
    r := key;
    var cut := Cut(key, '\n');
    if cut.Some? && cut.value.0 in m {
      r := MuteKey(m[cut.value.0], cut.value.1);
    }
  }

  lemma {:induction false} CanonMutesSnoc(mutes: seq<string>, m: Renames, key: string)
    ensures CanonMutes(mutes + [key], m) == CanonMutes(mutes, m) + if key == "" then [] else [CanonMute(key, m)]
  {
    if mutes == [] {
      assert [] + [key] == [key] && [key][1..] == [];
    } else {
      assert (mutes + [key])[1..] == mutes[1..] + [key];
      CanonMutesSnoc(mutes[1..], m, key);
    }
  }

  /** canonicalMutes: None when a key is too long. */
  method CanonicalMutes(mutes: seq<string>, m: Renames) returns (out: seq<string>, ok: bool)
    ensures ok <==> forall i :: 0 <= i < |mutes| ==> |mutes[i]| <= MAX_MUTE_KEY
    ensures ok ==> out == CanonMutes(mutes, m)
  {
    out := [];
    for i := 0 to |mutes|
      invariant forall j :: 0 <= j < i ==> |mutes[j]| <= MAX_MUTE_KEY
      invariant out == CanonMutes(mutes[..i], m)
    {
      CanonMutesSnoc(mutes[..i], m, mutes[i]);
      assert mutes[..i + 1] == mutes[..i] + [mutes[i]];
      if mutes[i] != "" {
        if |mutes[i]| > MAX_MUTE_KEY {
          return [], false;
        }
        var key := ResolveMute(mutes[i], m);
        out := out + [key];
      }
    }
    assert mutes[..|mutes|] == mutes;
    return out, true;
  }

  lemma {:induction false} CanonMutesHas(mutes: seq<string>, m: Renames, key: string)
    requires key != ""
    ensures key in CanonMutes(mutes, m)
            <==> exists i :: 0 <= i < |mutes| && mutes[i] != "" && CanonMute(mutes[i], m) == key
  {
    if mutes != [] {
      CanonMutesHas(mutes[1..], m, key);
      if i :| 0 <= i < |mutes| && mutes[i] != "" && CanonMute(mutes[i], m) == key {
        if i > 0 { assert mutes[1..][i - 1] == mutes[i]; }
      }
    }
  }

  /** The nicks a list of ignores stands for. */
  function Nicks(list: seq<string>): set<string> {
    set n | n in list && n != "" :: Lower(n)
  }

  /** The nicks ignored on a network by the entries under these keys, once their names are resolved. */
  ghost function NicksOver(d: Ignores, m: Renames, keys: set<string>, network: string): set<string> {
    set k, n | k in keys && k in d && Resolve(m, k) == network && n in Nicks(d[k]) :: n
  }

  predicate SoundEntry(key: string, nicks: seq<string>) {
    key != "" && |nicks| <= MAX_IGNORES && forall i :: 0 <= i < |nicks| ==> |nicks[i]| <= MAX_NICK
  }

  /** Acceptable: every entry is, and no resolved network ends up over the cap in distinct nicks. */
  ghost predicate Acceptable(d: Ignores, m: Renames) {
    && (forall k :: k in d ==> SoundEntry(k, d[k]))
    && (forall network :: |NicksOver(d, m, d.Keys, network)| <= MAX_IGNORES)
  }

  lemma NicksMore(list: seq<string>, n: string)
    ensures Nicks(list + [n]) == Nicks(list) + if n != "" then {Lower(n)} else {}
  {
    assert forall x :: x in list + [n] <==> x in list || x == n;
  }

  /** canonicalNicks. */
  method CanonicalNicks(nicks: seq<string>) returns (kept: seq<string>, ok: bool)
    ensures ok <==> forall i :: 0 <= i < |nicks| ==> |nicks[i]| <= MAX_NICK
    ensures ok ==> Elements(kept) == Nicks(nicks)
  {
    kept := [];
    for i := 0 to |nicks|
      invariant forall j :: 0 <= j < i ==> |nicks[j]| <= MAX_NICK
      invariant Elements(kept) == Nicks(nicks[..i])
    {
      assert nicks[..i + 1] == nicks[..i] + [nicks[i]];
      NicksMore(nicks[..i], nicks[i]);
      if nicks[i] != "" {
        if |nicks[i]| > MAX_NICK {
          return [], false;
        }
        kept := kept + [Lower(nicks[i])];
      }
    }
    assert nicks[..|nicks|] == nicks;
    return kept, true;
  }

  /** The list recorded so far for each resolved network. */
  ghost predicate Collected(d: Ignores, m: Renames, keys: set<string>, out: Ignores) {
    forall network :: && Distinct(ListOf(out, network))
                      && Elements(ListOf(out, network)) == NicksOver(d, m, keys, network)
                      && |ListOf(out, network)| <= MAX_IGNORES
  }

  lemma NicksOverStep(d: Ignores, m: Renames, keys: set<string>, k: string, network: string)
    requires k in d && k !in keys
    ensures NicksOver(d, m, keys + {k}, network)
            == NicksOver(d, m, keys, network) + if Resolve(m, k) == network then Nicks(d[k]) else {}
  {
  }

  lemma CollectStep(d: Ignores, m: Renames, keys: set<string>, k: string, out: Ignores, kept: seq<string>)
    requires k in d && k !in keys && Collected(d, m, keys, out) && Elements(kept) == Nicks(d[k])
    ensures Distinct(AppendUnseen(ListOf(out, Resolve(m, k)), kept))
    ensures Elements(AppendUnseen(ListOf(out, Resolve(m, k)), kept)) == NicksOver(d, m, keys + {k}, Resolve(m, k))
  {
    var list := ListOf(out, Resolve(m, k));
    NicksOverStep(d, m, keys, k, Resolve(m, k));
    AppendUnseenHas(list, kept);
    AppendUnseenDistinct(list, kept);
    assert Elements(AppendUnseen(list, kept)) == Elements(list) + Elements(kept);
  }

  lemma CollectMore(d: Ignores, m: Renames, keys: set<string>, k: string, out: Ignores, merged: seq<string>, now: Ignores)
    requires k in d && k !in keys && Collected(d, m, keys, out)
    requires Distinct(merged) && |merged| <= MAX_IGNORES
    requires Elements(merged) == NicksOver(d, m, keys + {k}, Resolve(m, k))
    requires now == if merged == [] then out else out[Resolve(m, k) := merged]
    ensures Collected(d, m, keys + {k}, now)
  {
    forall network
      ensures && Distinct(ListOf(now, network))
              && Elements(ListOf(now, network)) == NicksOver(d, m, keys + {k}, network)
              && |ListOf(now, network)| <= MAX_IGNORES
    {
      NicksOverStep(d, m, keys, k, network);
      if network == Resolve(m, k) && merged == [] {
        assert Elements(merged) == {};
        assert forall n :: n in ListOf(out, network) ==> n in Elements(ListOf(out, network));
      }
    }
  }

  lemma OverCap(d: Ignores, m: Renames, keys: set<string>, network: string, merged: seq<string>)
    requires keys <= d.Keys && Distinct(merged) && Elements(merged) == NicksOver(d, m, keys, network)
    requires |merged| > MAX_IGNORES
    ensures !Acceptable(d, m)
  {
    DistinctCount(merged);
    var all := NicksOver(d, m, d.Keys, network);
    assert Elements(merged) <= all;
    assert |all - Elements(merged)| == |all| - |Elements(merged)|;
  }

  /** canonicalIgnores: refused exactly when unacceptable; otherwise each resolved network ignores exactly the nicks of
      the entries that lead to it. */
  method CanonicalIgnores(d: Ignores, m: Renames) returns (out: Ignores, ok: bool)
    ensures ok <==> Acceptable(d, m)
    ensures ok ==> forall network :: Elements(ListOf(out, network)) == NicksOver(d, m, d.Keys, network)
  {
    out := map[];
    var todo := d.Keys;
    while todo != {}
      invariant todo <= d.Keys && Collected(d, m, d.Keys - todo, out)
      invariant forall k :: k in d.Keys - todo ==> SoundEntry(k, d[k])
      decreases todo
    {
      var k :| k in todo;
      if k == "" || |d[k]| > MAX_IGNORES {
        return map[], false;
      }
      var kept, sound := CanonicalNicks(d[k]);
      if !sound {
        return map[], false;
      }
      ghost var keys := d.Keys - todo;
      var network := Resolve(m, k);
      var merged := AppendUnseenLoop(ListOf(out, network), kept);
      CollectStep(d, m, keys, k, out, kept);
      if |merged| > MAX_IGNORES {
        OverCap(d, m, keys + {k}, network, merged);
        return map[], false;
      }
      var now := if merged == [] then out else out[network := merged];
      CollectMore(d, m, keys, k, out, merged, now);
      out := now;
      assert keys + {k} == d.Keys - (todo - {k});
      todo := todo - {k};
    }
    assert d.Keys - todo == d.Keys;
    forall network ensures |NicksOver(d, m, d.Keys, network)| <= MAX_IGNORES {
      DistinctCount(ListOf(out, network));
    }
    return out, true;
  }

  /** appendUnseen with its running set of what was seen. */
  method AppendUnseenLoop(dst: seq<string>, src: seq<string>) returns (r: seq<string>)
    ensures r == AppendUnseen(dst, src)
  {
    r := dst;
    var seen := Elements(dst);
    for i := 0 to |src|
      invariant seen == Elements(r) && AppendUnseen(r, src[i..]) == AppendUnseen(dst, src)
    {
      assert src[i..][1..] == src[i + 1..];
      if src[i] !in seen {
        seen := seen + {src[i]};
        r := r + [src[i]];
      }
    }
  }

  // ---- A stale write means the same as one rewritten at each rename --------------------------------------------------

  /** The names in a map are network names. */
  predicate NamesValid(m: Renames) {
    forall k :: k in m ==> '\n' !in k && '\n' !in m[k]
  }

  /** What set_filters stores for a write `d` under the map `m`. */
  ghost predicate Stored(d: Filters, m: Renames, e: Filters) {
    && e.mutes == CanonMutes(d.mutes, m)
    && forall network :: Elements(ListOf(e.ignores, network)) == NicksOver(d.ignores, m, d.ignores.Keys, network)
  }

  lemma SameLowerNonempty(a: string, b: string)
    requires Lower(a) == Lower(b) && b != ""
    ensures a != ""
  {
    assert |Lower(a)| == |a| && |Lower(b)| == |b|;
  }

  lemma StoredIgnores(d: Filters, m: Renames, e: Filters, network: string, sender: string)
    requires Stored(d, m, e) && sender != ""
    ensures Ignored(e.ignores, network, sender)
            <==> exists x :: Resolve(m, x) == network && Ignored(d.ignores, x, sender)
  {
    assert Elements(ListOf(e.ignores, network)) == NicksOver(d.ignores, m, d.ignores.Keys, network);
    if Ignored(e.ignores, network, sender) {
      var n :| n in e.ignores[network] && Lower(n) == Lower(sender);
      assert n in Elements(ListOf(e.ignores, network));
      var x :| x in d.ignores && Resolve(m, x) == network && n in Nicks(d.ignores[x]);
      var o :| o in d.ignores[x] && o != "" && Lower(o) == n;
      FoldIdempotent(Ascii, o);
      assert Ignored(d.ignores, x, sender);
    }
    if x :| Resolve(m, x) == network && Ignored(d.ignores, x, sender) {
      var o :| o in d.ignores[x] && Lower(o) == Lower(sender);
      SameLowerNonempty(o, sender);
      assert Lower(o) in Nicks(d.ignores[x]);
      assert Lower(o) in NicksOver(d.ignores, m, d.ignores.Keys, network);
      assert Lower(o) in ListOf(e.ignores, network);
      FoldIdempotent(Ascii, o);
    }
  }

  lemma StoredMutes(d: Filters, m: Renames, e: Filters, network: string, buffer: string)
    requires Stored(d, m, e) && NamesValid(m) && '\n' !in network
    ensures MuteKey(network, buffer) in e.mutes
            <==> exists x :: '\n' !in x && Resolve(m, x) == network && MuteKey(x, buffer) in d.mutes
  {
    var to := x => Resolve(m, x);
    var key := MuteKey(network, buffer);
    var routed := seq(|d.mutes|, i requires 0 <= i < |d.mutes| => CanonMute(d.mutes[i], m));
    RoutedMutes(d.mutes, routed, to, network, buffer);
    CanonMutesHas(d.mutes, m, key);
    assert key[|network|] == '\n';
    assert Cut("", '\n').None?;
    assert forall i :: 0 <= i < |d.mutes| && routed[i] == key ==> d.mutes[i] != "";
    assert (exists x :: '\n' !in x && to(x) == network && MuteKey(x, buffer) in d.mutes)
           <==> (exists x :: '\n' !in x && Resolve(m, x) == network && MuteKey(x, buffer) in d.mutes);
  }

  lemma StoredRoutes(d: Filters, m: Renames, e: Filters)
    requires Stored(d, m, e) && NamesValid(m)
    ensures Routed(d, e, x => Resolve(m, x))
  {
    var to := x => Resolve(m, x);
    forall network, buffer, sender | '\n' !in network
      ensures Drops(e, network, buffer, sender)
              <==> exists x :: '\n' !in x && to(x) == network && Drops(d, x, buffer, sender)
    {
      StoredMutes(d, m, e, network, buffer);
      if sender != "" { StoredIgnores(d, m, e, network, sender); }
      assert forall x :: Resolve(m, x) == network ==> '\n' !in x;
      if Drops(e, network, buffer, sender) {
        if MuteKey(network, buffer) in e.mutes {
          var x :| '\n' !in x && Resolve(m, x) == network && MuteKey(x, buffer) in d.mutes;
          assert to(x) == network && Drops(d, x, buffer, sender);
        } else {
          var x :| Resolve(m, x) == network && Ignored(d.ignores, x, sender);
          assert to(x) == network && Drops(d, x, buffer, sender);
        }
      }
    }
  }

  function RewriteAll(d: Filters, renames: seq<Rename>): Option<Filters>
    decreases |renames|
  {
    if renames == [] then Some(d)
    else
      match RewriteFilters(d, renames[0])
      case None => None
      case Some(e) => RewriteAll(e, renames[1..])
  }

  predicate ValidRenames(renames: seq<Rename>) {
    forall i :: 0 <= i < |renames| ==> ValidRename(renames[i])
  }

  /** Decisions follow the names through a whole chain of rewrites. */
  lemma {:induction false} RewriteAllRoutes(d: Filters, renames: seq<Rename>, network: string, buffer: string, sender: string)
    requires ValidRenames(renames) && RewriteAll(d, renames).Some? && '\n' !in network
    ensures Drops(RewriteAll(d, renames).value, network, buffer, sender)
            <==> exists x :: '\n' !in x && Chase(renames, x) == network && Drops(d, x, buffer, sender)
    decreases |renames|
  {
    if renames == [] {
      assert Chase(renames, network) == network;
    } else {
      var r := renames[0];
      var e := RewriteFilters(d, r).value;
      RewriteAllRoutes(e, renames[1..], network, buffer, sender);
      RewriteRoutes(d, r);
      var to := x => Renamed(r, x);
      if y :| '\n' !in y && Chase(renames[1..], y) == network && Drops(e, y, buffer, sender) {
        var x :| '\n' !in x && to(x) == y && Drops(d, x, buffer, sender);
        assert Chase(renames, x) == network;
      }
      if x :| '\n' !in x && Chase(renames, x) == network && Drops(d, x, buffer, sender) {
        assert '\n' !in to(x) && Drops(e, to(x), buffer, sender);
        assert Chase(renames[1..], to(x)) == network;
      }
    }
  }

  lemma {:induction false} FoldAllValid(m: Renames, renames: seq<Rename>)
    requires NamesValid(m) && ValidRenames(renames)
    ensures NamesValid(FoldAll(m, renames))
    decreases |renames|
  {
    if renames != [] { FoldAllValid(FoldRename(m, renames[0]), renames[1..]); }
  }

  /** A write based on names from before some renames, stored through the map those renames left, decides every message
      as if it had been stored before them and rewritten at each. */
  ghost predicate SameMeaning(m: Renames, renames: seq<Rename>) {
    forall d, before, late, network, buffer, sender ::
      Stored(d, m, before) && Stored(d, FoldAll(m, renames), late) && RewriteAll(before, renames).Some? && '\n' !in network
      ==> (Drops(late, network, buffer, sender)
           <==> Drops(RewriteAll(before, renames).value, network, buffer, sender))
  }

  lemma StaleWriteMeansTheSame(d: Filters, m: Renames, renames: seq<Rename>, before: Filters, late: Filters,
                               network: string, buffer: string, sender: string)
    requires Tracks(m, renames) && NamesValid(m) && ValidRenames(renames) && '\n' !in network
    requires Stored(d, m, before) && RewriteAll(before, renames).Some?
    requires Stored(d, FoldAll(m, renames), late)
    ensures Drops(late, network, buffer, sender)
            <==> Drops(RewriteAll(before, renames).value, network, buffer, sender)
  {
    var folded := FoldAll(m, renames);
    FoldAllValid(m, renames);
    StoredRoutes(d, m, before);
    StoredRoutes(d, folded, late);
    RewriteAllRoutes(before, renames, network, buffer, sender);
    var first := x => Resolve(m, x);
    var whole := x => Resolve(folded, x);
    if x :| '\n' !in x && whole(x) == network && Drops(d, x, buffer, sender) {
      assert '\n' !in first(x) && Drops(before, first(x), buffer, sender);
      assert Chase(renames, first(x)) == network;
    }
    if y :| '\n' !in y && Chase(renames, y) == network && Drops(before, y, buffer, sender) {
      var x :| '\n' !in x && first(x) == y && Drops(d, x, buffer, sender);
      assert whole(x) == network;
    }
  }

  /** A write that mutes one buffer, under the name it was based on. */
  function OneMute(name: string): Filters {
    Filters(map[], [MuteKey(name, "")])
  }

  lemma OneMuteDrops(name: string, network: string)
    requires '\n' !in name && '\n' !in network
    ensures Drops(OneMute(name), network, "", "") <==> network == name
  {
    if Drops(OneMute(name), network, "", "") { MuteKeyInjective(network, "", name, ""); }
  }

  function StoredOneMute(name: string, m: Renames): Filters {
    Filters(map[], CanonMutes([MuteKey(name, "")], m))
  }

  /** Stored through a map, it drops for the name that its own resolves to. */
  lemma StoredOneMuteDrops(name: string, m: Renames, network: string)
    requires NamesValid(m) && '\n' !in name && '\n' !in network
    ensures Stored(OneMute(name), m, StoredOneMute(name, m))
    ensures Drops(StoredOneMute(name, m), network, "", "") <==> network == Resolve(m, name)
  {
    var d, e := OneMute(name), StoredOneMute(name, m);
    assert forall x :: NicksOver(d.ignores, m, d.ignores.Keys, x) == {};
    StoredRoutes(d, m, e);
    var to := x => Resolve(m, x);
    OneMuteDrops(name, name);
    forall x | '\n' !in x ensures Drops(d, x, "", "") <==> x == name { OneMuteDrops(name, x); }
    assert to(name) == Resolve(m, name);
  }

  lemma {:induction false} NoIgnoresNeverRefused(mutes: seq<string>, renames: seq<Rename>)
    ensures RewriteAll(Filters(map[], mutes), renames).Some?
    decreases |renames|
  {
    if renames != [] { NoIgnoresNeverRefused(RewriteMutes(mutes, renames[0]), renames[1..]); }
  }

  lemma {:induction false} ChaseNewline(renames: seq<Rename>, name: string)
    requires ValidRenames(renames)
    ensures '\n' !in name ==> '\n' !in Chase(renames, name)
    ensures '\n' in name ==> Chase(renames, name) == name
    decreases |renames|
  {
    if renames != [] { ChaseNewline(renames[1..], Renamed(renames[0], name)); }
  }

  /** A name the map does not answer for gives a write that is misread. */
  lemma LostNameIsMisread(m: Renames, renames: seq<Rename>, name: string)
    requires NamesValid(m) && ValidRenames(renames) && SameMeaning(m, renames)
    ensures Resolve(FoldAll(m, renames), name) == Chase(renames, Resolve(m, name))
  {
    var folded := FoldAll(m, renames);
    FoldAllValid(m, renames);
    if '\n' in name {
      ChaseNewline(renames, name);
    } else {
      var d, before, late := OneMute(name), StoredOneMute(name, m), StoredOneMute(name, folded);
      var network := Resolve(folded, name);
      StoredOneMuteDrops(name, folded, network);
      StoredOneMuteDrops(name, m, Resolve(m, name));
      NoIgnoresNeverRefused(before.mutes, renames);
      assert Drops(RewriteAll(before, renames).value, network, "", "");
      RewriteAllRoutes(before, renames, network, "", "");
      var x :| '\n' !in x && Chase(renames, x) == network && Drops(before, x, "", "");
      StoredOneMuteDrops(name, m, x);
    }
  }

  /** Exactly when writes based on old names keep their meaning: when one lookup answers like following the renames. */
  lemma StaleWritesMeanTheSameIff(m: Renames, renames: seq<Rename>)
    requires NamesValid(m) && ValidRenames(renames)
    ensures SameMeaning(m, renames) <==> Tracks(m, renames)
  {
    if SameMeaning(m, renames) {
      forall name ensures Resolve(FoldAll(m, renames), name) == Chase(renames, Resolve(m, name)) {
        LostNameIsMisread(m, renames, name);
      }
    }
    if Tracks(m, renames) {
      forall d, before, late, network, buffer, sender |
        Stored(d, m, before) && Stored(d, FoldAll(m, renames), late) && RewriteAll(before, renames).Some? && '\n' !in network
        ensures Drops(late, network, buffer, sender)
                <==> Drops(RewriteAll(before, renames).value, network, buffer, sender)
      {
        StaleWriteMeansTheSame(d, m, renames, before, late, network, buffer, sender);
      }
    }
  }

  /** From fresh names: exactly while the map has room for the renames since. */
  lemma FreshStaleWritesIff(m: Renames, renames: seq<Rename>)
    requires NamesValid(m) && ValidRenames(renames)
    requires Flat(m) && |m| <= MAX_RENAMES && FreshNames(m.Keys, renames)
    ensures SameMeaning(m, renames) <==> renames == [] || |m| + |renames| <= MAX_RENAMES
  {
    StaleWritesMeanTheSameIff(m, renames);
    FreshChainTracksIff(m, renames);
  }

  // ---- Rules -------------------------------------------------------------------------------------------------------

  /** set_rules: trimmed, blank ones dropped, scopes resolved. */
  function CanonRules(rules: seq<Rule>, m: Renames): seq<Rule> {
    if rules == [] then []
    else CanonRule(rules[0], m) + CanonRules(rules[1..], m)
  }

  function CanonRule(r: Rule, m: Renames): seq<Rule> {
    var p := TrimSpace(r.pattern);
    if p == "" then [] else [Rule(p, Resolve(m, r.network))]
  }

  lemma {:induction false} CanonRulesSnoc(rules: seq<Rule>, m: Renames, r: Rule)
    ensures CanonRules(rules + [r], m) == CanonRules(rules, m) + CanonRule(r, m)
  {
    if rules == [] {
      assert [] + [r] == [r] && [r][1..] == [];
      assert CanonRule(r, m) + [] == [] + CanonRule(r, m);
    } else {
      assert (rules + [r])[1..] == rules[1..] + [r];
      CanonRulesSnoc(rules[1..], m, r);
      assert CanonRule(rules[0], m) + (CanonRules(rules[1..], m) + CanonRule(r, m))
             == CanonRules(rules, m) + CanonRule(r, m);
    }
  }

  function RewriteRulesAll(rules: seq<Rule>, renames: seq<Rename>): seq<Rule>
    decreases |renames|
  {
    if renames == [] then rules else RewriteRulesAll(RewriteRules(rules, renames[0]), renames[1..])
  }

  /** Rewriting rules at each rename sends every scope along the whole chain. */
  lemma {:induction false} RewrittenRule(rules: seq<Rule>, renames: seq<Rename>, i: nat)
    requires i < |rules|
    ensures |RewriteRulesAll(rules, renames)| == |rules|
    ensures RewriteRulesAll(rules, renames)[i] == rules[i].(network := Chase(renames, rules[i].network))
    decreases |renames|
  {
    if renames != [] { RewrittenRule(RewriteRules(rules, renames[0]), renames[1..], i); }
  }

  lemma {:induction false} RewrittenNone(renames: seq<Rename>)
    ensures RewriteRulesAll([], renames) == []
    decreases |renames|
  {
    if renames != [] {
      assert RewriteRules([], renames[0]) == [];
      RewrittenNone(renames[1..]);
    }
  }

  lemma {:induction false} CanonRulesChase(rules: seq<Rule>, m: Renames, renames: seq<Rename>, i: nat)
    requires Tracks(m, renames)
    ensures |CanonRules(rules, FoldAll(m, renames))| == |CanonRules(rules, m)|
    ensures i < |CanonRules(rules, m)| ==>
            var c := CanonRules(rules, m)[i];
            CanonRules(rules, FoldAll(m, renames))[i] == c.(network := Chase(renames, c.network))
    decreases |rules|
  {
    if rules != [] {
      var n := |CanonRule(rules[0], m)|;
      CanonRulesChase(rules[1..], m, renames, if i < n then 0 else i - n);
    }
  }

  ghost predicate SameRules(m: Renames, renames: seq<Rename>) {
    forall rules :: CanonRules(rules, FoldAll(m, renames)) == RewriteRulesAll(CanonRules(rules, m), renames)
  }

  lemma OneRule(m: Renames, name: string)
    ensures CanonRules([Rule("x", name)], m) == [Rule("x", Resolve(m, name))]
  {
    var rules := [Rule("x", name)];
    assert TrimSpace("x") == "x";
    assert rules[1..] == [];
    assert CanonRules(rules[1..], m) == [];
  }

  /** For rules the two ways store the very same list, exactly when one lookup answers like following the renames. */
  lemma StaleRulesAreTheSame(m: Renames, renames: seq<Rename>)
    ensures SameRules(m, renames) <==> Tracks(m, renames)
  {
    if Tracks(m, renames) {
      forall rules ensures CanonRules(rules, FoldAll(m, renames)) == RewriteRulesAll(CanonRules(rules, m), renames) {
        StaleRuleList(rules, m, renames);
      }
    }
    if SameRules(m, renames) {
      forall name ensures Resolve(FoldAll(m, renames), name) == Chase(renames, Resolve(m, name)) {
        OneRule(m, name);
        OneRule(FoldAll(m, renames), name);
        RewrittenRule(CanonRules([Rule("x", name)], m), renames, 0);
        assert CanonRules([Rule("x", name)], FoldAll(m, renames))[0].network == Resolve(FoldAll(m, renames), name);
      }
    }
  }

  lemma StaleRuleList(rules: seq<Rule>, m: Renames, renames: seq<Rename>)
    requires Tracks(m, renames)
    ensures CanonRules(rules, FoldAll(m, renames)) == RewriteRulesAll(CanonRules(rules, m), renames)
  {
    var c, late := CanonRules(rules, m), CanonRules(rules, FoldAll(m, renames));
    CanonRulesChase(rules, m, renames, 0);
    if c == [] {
      RewrittenNone(renames);
    } else {
      RewrittenRule(c, renames, 0);
      forall i | 0 <= i < |c| ensures late[i] == RewriteRulesAll(c, renames)[i] {
        CanonRulesChase(rules, m, renames, i);
        RewrittenRule(c, renames, i);
      }
    }
  }

  predicate HitsResolved(r: Rule, m: Renames, network: string, hit: string -> bool) {
    RuleHits(Rule(r.pattern, Resolve(m, r.network)), network, hit)
  }

  lemma HighlightsAppend(a: seq<Rule>, b: seq<Rule>, network: string, hit: string -> bool)
    ensures Highlights(a + b, network, hit) <==> Highlights(a, network, hit) || Highlights(b, network, hit)
  {
    if i :| 0 <= i < |b| && RuleHits(b[i], network, hit) { assert RuleHits((a + b)[|a| + i], network, hit); }
    if i :| 0 <= i < |a| && RuleHits(a[i], network, hit) { assert RuleHits((a + b)[i], network, hit); }
  }

  /** Storing rules changes no decision under the resolved names. */
  lemma {:induction false} CanonRulesDecide(rules: seq<Rule>, m: Renames, network: string, hit: string -> bool)
    ensures Highlights(CanonRules(rules, m), network, hit)
            <==> exists r :: r in rules && HitsResolved(r, m, network, hit)
  {
    if rules != [] {
      CanonRulesDecide(rules[1..], m, network, hit);
      TrimSpaceIdempotent(rules[0].pattern);
      var p := TrimSpace(rules[0].pattern);
      var head := CanonRule(rules[0], m);
      HighlightsAppend(head, CanonRules(rules[1..], m), network, hit);
      assert rules == [rules[0]] + rules[1..];
      if p != "" { assert RuleHits(head[0], network, hit) == HitsResolved(rules[0], m, network, hit); }
      assert Highlights(head, network, hit) <==> HitsResolved(rules[0], m, network, hit);
    }
  }

  // ---- The synced settings as the object the hub updates ---------------------------------------------------------------

  /** The stored rules, filters and rename map. */
  class SyncedPolicy {
    var rules: seq<Rule>
    var filters: Filters
    var renames: Renames

    constructor ()
      ensures rules == [] && filters == Filters(map[], []) && renames == map[]
    {
      rules, filters, renames := [], Filters(map[], []), map[];
    }

    method RewriteRuleRefs(r: Rename) returns (changed: bool)
      modifies this`rules
      ensures rules == RewriteRules(old(rules), r)
      ensures changed <==> exists i :: 0 <= i < |old(rules)| && old(rules)[i].network == r.before
    {
      changed := false;
      for i := 0 to |rules|
        invariant |rules| == |old(rules)|
        invariant forall j :: 0 <= j < i ==> rules[j] == RewriteRules(old(rules), r)[j]
        invariant forall j :: i <= j < |rules| ==> rules[j] == old(rules)[j]
        invariant changed <==> exists j :: 0 <= j < i && old(rules)[j].network == r.before
      {
        if rules[i].network == r.before {
          rules := rules[i := rules[i].(network := r.now)];
          changed := true;
        }
      }
    }

    method RewriteMuteRefs(r: Rename) returns (mutes: seq<string>)
      ensures mutes == RewriteMutes(filters.mutes, r)
    {
      mutes := filters.mutes;
      var prefix := r.before + "\n";
      for i := 0 to |mutes|
        invariant |mutes| == |filters.mutes|
        invariant forall j :: 0 <= j < i ==> mutes[j] == RewriteMute(filters.mutes[j], r)
        invariant forall j :: i <= j < |mutes| ==> mutes[j] == filters.mutes[j]
      {
        if prefix <= mutes[i] {
          mutes := mutes[i := r.now + "\n" + mutes[i][|prefix|..]];
        }
      }
    }

    /** rewriteFilterRefs; a refusal leaves the filters alone. */
    method RewriteFilterRefs(r: Rename) returns (ok: bool)
      modifies this`filters
      ensures ok <==> RewriteFilters(old(filters), r).Some?
      ensures filters == if ok then RewriteFilters(old(filters), r).value else old(filters)
    {
      var ignores := filters.ignores;
      if r.before in ignores {
        var nicks := ignores[r.before];
        ignores := ignores - {r.before};
        var merged := AppendUnseenLoop([], ListOf(ignores, r.now));
        merged := AppendUnseenLoop(merged, nicks);
        if |merged| > MAX_IGNORES {
          return false;
        }
        ignores := ignores[r.now := merged];
      }
      var mutes := RewriteMuteRefs(r);
      filters := Filters(ignores, mutes);
      return true;
    }

    method FoldRenameMap(r: Rename)
      modifies this`renames
      ensures renames == FoldRename(old(renames), r)
    {
      var m := renames;
      var todo := m.Keys;
      while todo != {}
        invariant todo <= m.Keys == renames.Keys
        invariant forall k :: k in m ==> m[k] == if k in todo then renames[k] else Renamed(r, renames[k])
        decreases todo
      {
        var k :| k in todo;
        if m[k] == r.before {
          m := m[k := r.now];
        }
        todo := todo - {k};
      }
      m := m - {r.now};
      assert m == Followed(renames, r);
      if |m| >= MAX_RENAMES {
        m := map[];
      }
      renames := m[r.before := r.now];
    }

    /** A rename commits the rules, the filters and the map together, or nothing. */
    method RenameNetwork(r: Rename) returns (ok: bool)
      modifies this
      ensures ok <==> RewriteFilters(old(filters), r).Some?
      ensures ok ==> rules == RewriteRules(old(rules), r) && filters == RewriteFilters(old(filters), r).value
                     && renames == FoldRename(old(renames), r)
      ensures !ok ==> rules == old(rules) && filters == old(filters) && renames == old(renames)
    {
      ok := RewriteFilterRefs(r);
      if ok {
        var changed := RewriteRuleRefs(r);
        FoldRenameMap(r);
      }
    }

    /** set_filters: a write, possibly based on old names. */
    method SetFilters(d: Filters) returns (ok: bool)
      modifies this`filters
      ensures ok <==> Acceptable(d.ignores, renames) && forall i :: 0 <= i < |d.mutes| ==> |d.mutes[i]| <= MAX_MUTE_KEY
      ensures if ok then Stored(d, renames, filters) else filters == old(filters)
    {
      var ignores, sound := CanonicalIgnores(d.ignores, renames);
      if !sound {
        return false;
      }
      var mutes, fits := CanonicalMutes(d.mutes, renames);
      if !fits {
        return false;
      }
      filters := Filters(ignores, mutes);
      return true;
    }

    /** set_rules, past its length checks. */
    method SetRules(written: seq<Rule>)
      modifies this`rules
      ensures rules == CanonRules(written, renames)
    {
      var kept: seq<Rule> := [];
      for i := 0 to |written|
        invariant kept == CanonRules(written[..i], renames)
      {
        CanonRulesSnoc(written[..i], renames, written[i]);
        assert written[..i + 1] == written[..i] + [written[i]];
        var p := TrimSpace(written[i].pattern);
        if p != "" {
          kept := kept + [Rule(p, Resolve(renames, written[i].network))];
        }
      }
      assert written[..|written|] == written;
      rules := kept;
    }
  }
}
