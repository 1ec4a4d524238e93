/** channelPage: the `limit` smallest folded keys after a cursor, selected with a bounded max-heap. */
module RosterPage {
  import opened Casemap
  import opened Ordering
  import opened RosterModel
  import RosterLaws

  // ---- A max-heap -------------------------------------------------------------------------------------------

  function Parent(i: int): int
    requires i > 0
    ensures 0 <= Parent(i) < i
  {
    (i - 1) / 2
  }

  /** In a heap no entry is below one of its children. */
  predicate Settled(h: seq<string>, i: int)
    requires 0 < i < |h|
  {
    !Before(h[Parent(i)], h[i])
  }

  predicate IsHeap(h: seq<string>) {
    forall i :: 0 < i < |h| ==> Settled(h, i)
  }

  lemma {:induction false} RootIsLargest(h: seq<string>, i: nat)
    requires IsHeap(h) && i < |h|
    ensures !Before(h[0], h[i])
  {
    if i == 0 {
      BeforeTotal(h[0], h[0]);
    } else {
      var p := Parent(i);
      RootIsLargest(h, p);
      assert Settled(h, i);
      if Before(h[0], h[i]) {
        BeforeTotal(h[p], h[i]);
        BeforeTotal(h[0], h[p]);
        if h[p] != h[i] && h[0] != h[p] {
          BeforeTransitive(h[i], h[p], h[0]);
          BeforeTotal(h[0], h[i]);
        }
      }
    }
  }

  function Swapped(h: seq<string>, i: nat, j: nat): (r: seq<string>)
    requires i < |h| && j < |h|
    ensures |r| == |h| && multiset(r) == multiset(h)
  {
    h[i := h[j]][j := h[i]]
  }

  /** Only the edge above `j` may be out of order, and skipping `j` loses nothing. */
  predicate HeapAbove(h: seq<string>, j: int) {
    && 0 <= j < |h|
    && (forall i :: 0 < i < |h| && i != j ==> Settled(h, i))
    && (forall i :: 0 < i < |h| && j > 0 && Parent(i) == j ==> !Before(h[Parent(j)], h[i]))
  }

  /** Only the edges below `j` may be out of order, and skipping `j` loses nothing. */
  predicate HeapBelow(h: seq<string>, j: int) {
    && 0 <= j < |h|
    && (forall i :: 0 < i < |h| && Parent(i) != j ==> Settled(h, i))
    && (forall i :: 0 < i < |h| && j > 0 && Parent(i) == j ==> !Before(h[Parent(j)], h[i]))
  }

  lemma NotBefore(a: string, b: string, c: string)
    requires !Before(a, b) && !Before(b, c)
    ensures !Before(a, c)
  {
    BeforeTotal(a, b);
    BeforeTotal(b, c);
    BeforeTotal(a, c);
    if Before(a, c) && b != c && a != b {
      BeforeTransitive(c, b, a);
    }
  }

  lemma UpStep(h: seq<string>, j: nat)
    requires HeapAbove(h, j) && j > 0 && Before(h[Parent(j)], h[j])
    ensures HeapAbove(Swapped(h, Parent(j), j), Parent(j))
  {
    var p := Parent(j);
    var r := Swapped(h, p, j);
    BeforeTotal(h[p], h[j]);
    forall i | 0 < i < |r| && i != p
      ensures Settled(r, i)
    {
      if i != j {
        assert Settled(h, i);
        if Parent(i) == p && Before(h[j], h[i]) { BeforeTransitive(h[p], h[j], h[i]); }
      }
    }
    forall i | 0 < i < |r| && p > 0 && Parent(i) == p
      ensures !Before(r[Parent(p)], r[i])
    {
      assert Settled(h, p);
      if i != j {
        assert Settled(h, i);
        NotBefore(h[Parent(p)], h[p], h[i]);
      }
    }
  }

  /** heap.Push: append, then sift up. */
  method Push(h0: seq<string>, x: string) returns (h: seq<string>)
    requires IsHeap(h0)
    ensures IsHeap(h) && multiset(h) == multiset(h0) + multiset{x}
  {
    h := h0 + [x];
    var j := |h0|;
    forall i | 0 < i < |h| && i != j ensures Settled(h, i) {
      assert Settled(h0, i);
      assert h[i] == h0[i] && h[Parent(i)] == h0[Parent(i)];
    }
    while j > 0 && Before(h[Parent(j)], h[j])
      invariant HeapAbove(h, j) && multiset(h) == multiset(h0) + multiset{x}
      decreases j
    {
      UpStep(h, j);
      h, j := Swapped(h, Parent(j), j), Parent(j);
    }
  }

  /** The larger child of `j`. */
  function LargerChild(h: seq<string>, j: nat): nat
    requires 2 * j + 1 < |h|
  {
    if 2 * j + 2 < |h| && Before(h[2 * j + 1], h[2 * j + 2]) then 2 * j + 2 else 2 * j + 1
  }

  lemma LargerChildIsLarger(h: seq<string>, j: nat, i: nat)
    requires 2 * j + 1 < |h| && 0 < i < |h| && Parent(i) == j
    ensures !Before(h[LargerChild(h, j)], h[i])
  {
    assert i == 2 * j + 1 || i == 2 * j + 2;
    if 2 * j + 2 < |h| { BeforeTotal(h[2 * j + 1], h[2 * j + 2]); }
    BeforeTotal(h[i], h[i]);
  }

  lemma DownStep(h: seq<string>, j: nat)
    requires HeapBelow(h, j) && 2 * j + 1 < |h| && Before(h[j], h[LargerChild(h, j)])
    ensures HeapBelow(Swapped(h, j, LargerChild(h, j)), LargerChild(h, j))
  {
    var c := LargerChild(h, j);
    var r := Swapped(h, j, c);
    BeforeTotal(h[j], h[c]);
    forall i | 0 < i < |r| && Parent(i) != c
      ensures Settled(r, i)
    {
      if Parent(i) == j { LargerChildIsLarger(h, j, i); }
      if i != j && Parent(i) != j { assert Settled(h, i); }
    }
    forall i | 0 < i < |r| && Parent(i) == c
      ensures !Before(r[Parent(c)], r[i])
    {
      assert Settled(h, i);
    }
  }

  /** heap.Fix at the root: sift the replaced root down. */
  method FixRoot(h0: seq<string>) returns (h: seq<string>)
    requires h0 != [] && forall i :: 0 < i < |h0| && Parent(i) != 0 ==> Settled(h0, i)
    ensures IsHeap(h) && multiset(h) == multiset(h0)
  {
    h := h0;
    var j := 0;
    while 2 * j + 1 < |h| && Before(h[j], h[LargerChild(h, j)])
      invariant HeapBelow(h, j) && |h| == |h0| && multiset(h) == multiset(h0)
      decreases |h| - j
    {
      var c := LargerChild(h, j);
      DownStep(h, j);
      h, j := Swapped(h, j, c), c;
    }
    forall i | 0 < i < |h| && Parent(i) == j ensures Settled(h, i) {
      LargerChildIsLarger(h, j, i);
      NotBefore(h[j], h[LargerChild(h, j)], h[i]);
    }
  }

  // ---- The page ---------------------------------------------------------------------------------------------

  /** Whether a key comes after the cursor; an empty cursor asks for the first page. */
  predicate Eligible(key: string, after: string) {
    after == "" || Before(after, key)
  }

  /** The reference: drop the keys up to the cursor from the sorted listing, keep the first `limit`. */
  function After(all: seq<string>, after: string): seq<string> {
    if all == [] || Eligible(all[0], after) then all else After(all[1..], after)
  }

  function First(s: seq<string>, limit: int): seq<string> {
    if limit <= 0 then [] else if limit < |s| then s[..limit] else s
  }

  lemma {:induction false} AfterIsSuffix(all: seq<string>, after: string)
    requires Ordered(all)
    ensures |After(all, after)| <= |all| && After(all, after) == all[|all| - |After(all, after)|..]
    ensures forall x :: x in After(all, after) <==> x in all && Eligible(x, after)
  {
    if all != [] {
      if Eligible(all[0], after) {
        forall x | x in all ensures Eligible(x, after) {
          var i :| 0 <= i < |all| && all[i] == x;
          if i > 0 && after != "" { BeforeTransitive(after, all[0], all[i]); }
        }
      } else {
        AfterIsSuffix(all[1..], after);
        assert all == [all[0]] + all[1..];
      }
    }
  }

  // ---- Selecting a page ------------------------------------------------------------------------------------

  function Capped(limit: nat, n: nat): nat {
    if n < limit then n else limit
  }

  /** The heap holds the `limit` smallest of the keys seen. */
  predicate Selected(h: seq<string>, chosen: set<string>, seen: set<string>, limit: nat) {
    IsHeap(h) && multiset(h) == multiset(chosen) && Smallest(chosen, seen) && |chosen| == Capped(limit, |seen|)
  }

  lemma SelectedAll(h: seq<string>, chosen: set<string>, seen: set<string>, limit: nat)
    requires Selected(h, chosen, seen, limit) && |h| < limit
    ensures chosen == seen
  {
    assert |multiset(h)| == |multiset(chosen)|;
    assert |seen - chosen| == |seen| - |chosen|;
  }

  lemma SelectedPush(h: seq<string>, chosen: set<string>, seen: set<string>, limit: nat, key: string, r: seq<string>)
    requires Selected(h, chosen, seen, limit) && |h| < limit && key !in seen
    requires IsHeap(r) && multiset(r) == multiset(h) + multiset{key}
    ensures Selected(r, chosen + {key}, seen + {key}, limit)
  {
    SelectedAll(h, chosen, seen, limit);
    assert |multiset(h)| == |multiset(chosen)|;
  }

  lemma SelectedSkip(h: seq<string>, chosen: set<string>, seen: set<string>, limit: nat, key: string)
    requires Selected(h, chosen, seen, limit) && |h| >= limit && key !in seen
    requires limit == 0 || !Before(key, h[0])
    ensures Selected(h, chosen, seen + {key}, limit)
  {
    assert |multiset(h)| == |multiset(chosen)|;
    forall x | x in chosen ensures Before(x, key) {
      assert x in multiset(h);
      var i :| 0 <= i < |h| && h[i] == x;
      RootIsLargest(h, i);
      NotBefore(key, h[0], h[i]);
      BeforeTotal(x, key);
    }
  }

  lemma SelectedSwap(h: seq<string>, chosen: set<string>, seen: set<string>, limit: nat, key: string, r: seq<string>)
    requires Selected(h, chosen, seen, limit) && h != [] && |h| >= limit && key !in seen && Before(key, h[0])
    requires IsHeap(r) && multiset(r) == multiset(h[0 := key])
    ensures Selected(r, chosen - {h[0]} + {key}, seen + {key}, limit)
  {
    assert |multiset(h)| == |multiset(chosen)|;
    assert h[0] in multiset(h);
    var now := chosen - {h[0]} + {key};
    assert multiset(r) == multiset(h) - multiset{h[0]} + multiset{key} == multiset(now);
    forall x, y | x in now && y in seen + {key} && y !in now ensures Before(x, y) {
      if x == key {
        if y != h[0] { BeforeTransitive(key, h[0], y); }
      } else if y == h[0] {
        assert x in multiset(h);
        var i :| 0 <= i < |h| && h[i] == x;
        RootIsLargest(h, i);
        BeforeTotal(x, h[0]);
      }
    }
  }

  /** One eligible key offered to the heap. */
  method Offer(heap: seq<string>, key: string, limit: nat, ghost chosen: set<string>, ghost seen: set<string>)
    returns (h: seq<string>, ghost now: set<string>)
    requires Selected(heap, chosen, seen, limit) && key !in seen
    ensures Selected(h, now, seen + {key}, limit)
  {
    if |heap| < limit {
      h := Push(heap, key);
      now := chosen + {key};
      SelectedPush(heap, chosen, seen, limit, key, h);
    } else if limit > 0 && Before(key, heap[0]) {
      forall i | 0 < i < |heap| && Parent(i) != 0 ensures Settled(heap[0 := key], i) { assert Settled(heap, i); }
      h := FixRoot(heap[0 := key]);
      now := chosen - {heap[0]} + {key};
      SelectedSwap(heap, chosen, seen, limit, key, h);
    } else {
      h, now := heap, chosen;
      SelectedSkip(heap, chosen, seen, limit, key);
    }
  }

  method SelectKeys(members: set<string>, limit: nat, after: string) returns (keys: seq<string>, eligible: nat)
    ensures keys == First(After(Listing(members), after), limit)
    ensures eligible == |After(Listing(members), after)|
  {
    var heap: seq<string> := [];
    var todo := members;
    eligible := 0;
    ghost var seen: set<string> := {};
    ghost var chosen: set<string> := {};
    while todo != {}
      invariant todo <= members && seen == set x | x in members - todo && Eligible(x, after)
      invariant Selected(heap, chosen, seen, limit) && eligible == |seen|
      decreases todo
    {
      var key :| key in todo;
      if Eligible(key, after) {
        eligible := eligible + 1;
        heap, chosen := Offer(heap, key, limit, chosen, seen);
        seen := seen + {key};
      }
      todo := todo - {key};
    }
    assert seen == set x | x in members && Eligible(x, after);
    EligibleCount(members, after);
    DistinctIn(heap, chosen);
    keys := SortStrings(heap);
    SortedSelection(heap, keys, chosen, seen, limit, After(Listing(members), after));
  }

  lemma EligibleCount(members: set<string>, after: string)
    ensures Elements(After(Listing(members), after)) == set x | x in members && Eligible(x, after)
    ensures Ordered(After(Listing(members), after))
    ensures |Elements(After(Listing(members), after))| == |After(Listing(members), after)|
  {
    var all := Listing(members);
    ListingIsSorted(members);
    AfterIsSuffix(all, after);
    var s := After(all, after);
    assert forall x :: x in all <==> x in multiset(all);
    forall i, j | 0 <= i < j < |s| ensures s[i] != s[j] { BeforeTotal(s[i], s[j]); }
    DistinctCount(s);
  }

  lemma SortedSelection(h: seq<string>, keys: seq<string>, chosen: set<string>, seen: set<string>, limit: nat,
                        s: seq<string>)
    requires Selected(h, chosen, seen, limit) && multiset(keys) == multiset(h) && Ordered(keys)
    requires Ordered(s) && Elements(s) == seen && |seen| == |s|
    ensures keys == First(s, limit)
  {
    assert forall x :: x in keys <==> x in multiset(keys);
    assert Elements(keys) == chosen;
    SmallestIsPrefix(keys, s);
    assert |keys| == |multiset(keys)| == |multiset(chosen)| == |chosen|;
  }

  function Rows(members: Members, keys: seq<string>): seq<Member>
    requires forall k :: k in keys ==> k in members
  {
    seq(|keys|, i requires 0 <= i < |keys| => members[keys[i]])
  }

  /** The keys past the cursor in order, and the first `limit` of them. */
  ghost function Rest(members: Members, after: string): (r: seq<string>)
    ensures forall k :: k in r ==> k in members
  {
    EligibleCount(members.Keys, after);
    assert forall k :: k in After(Listing(members.Keys), after) ==> k in Elements(After(Listing(members.Keys), after));
    After(Listing(members.Keys), after)
  }

  ghost function Page(members: Members, limit: int, after: string): seq<Member> {
    Rows(members, First(Rest(members, after), limit))
  }

  method ChannelPage(s: State, env: Env, name: string, limit: int, after: string)
    returns (topic: string, members: seq<Member>, truncated: bool, ok: bool)
    ensures ok <==> Key(env, name) in s
    ensures ok ==> topic == s[Key(env, name)].topic && members == Page(s[Key(env, name)].members, limit, after)
    ensures ok ==> (truncated <==> |members| < |Rest(s[Key(env, name)].members, after)|)
  {
    var key := Key(env, name);
    if key !in s {
      return "", [], false, false;
    }
    var st := s[key];
    var keys, eligible := SelectKeys(st.members.Keys, if limit < 0 then 0 else limit, after);
    assert keys == First(Rest(st.members, after), limit);
    members := Rows(st.members, keys);
    return st.topic, members, eligible > |members|, true;
  }

  // ---- Walking the roster ---------------------------------------------------------------------------------

  /** The cursor handed out after a response is the fold of the last nick sent, which is that member's key. */
  lemma CursorIsLastKey(cm: CaseMapping, members: Members, limit: int, after: string, count: nat)
    requires RosterLaws.Keyed(cm, members) && 1 <= count <= |Page(members, limit, after)|
    ensures Fold(cm, Page(members, limit, after)[count - 1].nick) == First(Rest(members, after), limit)[count - 1]
  {
    var keys := First(Rest(members, after), limit);
    assert keys[count - 1] in keys;
    assert Page(members, limit, after)[count - 1] == members[keys[count - 1]];
  }

  /** Successive responses over an unchanged listing.  Response i carries the first sent[i] keys of its page (a byte
      cap may cut a page short, never to zero), and another request follows only after a truncated response. */
  predicate Walk(all: seq<string>, limit: int, after: string, sent: seq<nat>)
    decreases |sent|
  {
    sent == [] ||
    var page := First(After(all, after), limit);
    && 1 <= sent[0] <= |page|
    && (|sent| > 1 ==> sent[0] < |After(all, after)|)
    && Walk(all, limit, page[sent[0] - 1], sent[1..])
  }

  /** The keys that response k carries. */
  function Response(all: seq<string>, limit: int, after: string, sent: seq<nat>, k: nat): seq<string>
    requires Walk(all, limit, after, sent) && k < |sent|
    decreases |sent|
  {
    var page := First(After(all, after), limit);
    if k == 0 then page[..sent[0]] else Response(all, limit, page[sent[0] - 1], sent[1..], k - 1)
  }

  function Total(sent: seq<nat>): nat {
    if sent == [] then 0 else sent[0] + Total(sent[1..])
  }

  /** The last response said there is nothing more. */
  predicate Finished(all: seq<string>, limit: int, after: string, sent: seq<nat>)
    requires Walk(all, limit, after, sent) && sent != []
    decreases |sent|
  {
    if |sent| == 1 then sent[0] == |After(all, after)|
    else Finished(all, limit, First(After(all, after), limit)[sent[0] - 1], sent[1..])
  }

  /** The cursor taken from the n-th key resumes behind it, unless it is the empty key: then the walk starts over. */
  lemma {:induction false} ResumesIff(all: seq<string>, n: nat)
    requires Ordered(all) && 1 <= n <= |all|
    ensures After(all, all[n - 1]) == all[n..] <==> all[n - 1] != ""
    decreases |all|
  {
    BeforeTotal(all[0], all[n - 1]);
    if all[n - 1] != "" && n > 1 {
      ResumesIff(all[1..], n - 1);
    }
  }

  /** Only the first key of a listing can be empty. */
  lemma NotEmpty(all: seq<string>, i: nat)
    requires Ordered(all) && i < |all| && ("" in all ==> i >= 1)
    ensures all[i] != ""
  {
    if i > 0 { assert Before(all[0], all[i]); }
  }

  lemma PageSlice(all: seq<string>, n: nat, limit: int, count: nat)
    requires n <= |all| && 1 <= count <= |First(all[n..], limit)|
    ensures n + count <= |all| && First(all[n..], limit)[..count] == all[n..n + count]
    ensures First(all[n..], limit)[count - 1] == all[n + count - 1]
  {
    var page := First(all[n..], limit);
    assert |page| <= |all| - n && forall i :: 0 <= i < |page| ==> page[i] == all[n + i];
  }

  predicate ResumesAt(all: seq<string>, m: nat)
    requires 1 <= m <= |all|
  {
    After(all, all[m - 1]) == all[m..]
  }

  /** Every cursor but that of an empty first key resumes behind its key. */
  predicate Resumable(all: seq<string>) {
    forall m :: 1 <= m <= |all| && ("" in all ==> m >= 2) ==> ResumesAt(all, m)
  }

  lemma OrderedIsResumable(all: seq<string>)
    requires Ordered(all)
    ensures Resumable(all)
  {
    forall m | 1 <= m <= |all| && ("" in all ==> m >= 2) ensures ResumesAt(all, m) {
      NotEmpty(all, m - 1);
      ResumesIff(all, m);
    }
  }

  /** Reading on from position n: the responses continue the listing with no gap and no repeat. */
  lemma {:induction false} WalkFrom(all: seq<string>, limit: int, n: nat, after: string, sent: seq<nat>)
    requires Resumable(all) && Walk(all, limit, after, sent) && n <= |all| && After(all, after) == all[n..]
    requires "" in all && n == 0 && |sent| > 1 ==> sent[0] >= 2
    ensures n + Total(sent) <= |all| && |sent| <= Total(sent)
    ensures sent != [] ==> (Finished(all, limit, after, sent) <==> n + Total(sent) == |all|)
    decreases |sent|
  {
    if sent != [] {
      var m := n + sent[0];
      PageSlice(all, n, limit, sent[0]);
      if |sent| > 1 {
        assert ResumesAt(all, m);
        WalkFrom(all, limit, m, all[m - 1], sent[1..]);
      }
    }
  }

  /** How many keys the responses before response k carried. */
  function SentBefore(sent: seq<nat>, k: nat): nat
    requires k <= |sent|
  {
    if k == 0 then 0 else sent[0] + SentBefore(sent[1..], k - 1)
  }

  lemma {:induction false} SentBeforeIsTotal(sent: seq<nat>, k: nat)
    requires k <= |sent|
    ensures SentBefore(sent, k) == Total(sent[..k])
  {
    if k > 0 {
      SentBeforeIsTotal(sent[1..], k - 1);
      assert sent[..k][1..] == sent[1..][..k - 1];
    }
  }

  /** `part` is the stretch of the listing of this length from this position on. */
  predicate Stretch(all: seq<string>, part: seq<string>, from: nat, count: nat) {
    from + count <= |all| && part == all[from..from + count]
  }

  /** The first page from position n: what it carries and the cursor it leaves. */
  lemma PageStretch(all: seq<string>, limit: int, n: nat, after: string, count: nat)
    requires n <= |all| && After(all, after) == all[n..] && 1 <= count <= |First(After(all, after), limit)|
    ensures var page := First(After(all, after), limit);
            Stretch(all, page[..count], n, count) && page[count - 1] == all[n + count - 1]
  {
    PageSlice(all, n, limit, count);
  }

  /** Later responses are those of the walk that resumes behind the first one. */
  lemma NextResponse(all: seq<string>, limit: int, n: nat, after: string, sent: seq<nat>, k: nat)
    requires Walk(all, limit, after, sent) && n <= |all| && After(all, after) == all[n..] && 1 <= k < |sent|
    ensures n + sent[0] <= |all| && Walk(all, limit, all[n + sent[0] - 1], sent[1..])
    ensures Response(all, limit, after, sent, k) == Response(all, limit, all[n + sent[0] - 1], sent[1..], k - 1)
  {
    PageStretch(all, limit, n, after, sent[0]);
  }

  lemma Resumes(all: seq<string>, m: nat)
    requires Resumable(all) && 1 <= m <= |all| && ("" in all ==> m >= 2)
    ensures After(all, all[m - 1]) == all[m..]
  {
    assert ResumesAt(all, m);
  }

  /** Response k is the stretch of the listing right behind what the earlier responses carried. */
  lemma {:induction false} ResponseFrom(all: seq<string>, limit: int, n: nat, after: string, sent: seq<nat>, k: nat)
    requires Resumable(all) && Walk(all, limit, after, sent) && n <= |all| && After(all, after) == all[n..]
    requires "" in all && n == 0 && |sent| > 1 ==> sent[0] >= 2
    requires k < |sent|
    ensures Stretch(all, Response(all, limit, after, sent, k), n + SentBefore(sent, k), sent[k])
    decreases |sent|
  {
    if k == 0 {
      PageStretch(all, limit, n, after, sent[0]);
    } else {
      var m := n + sent[0];
      NextResponse(all, limit, n, after, sent, k);
      Resumes(all, m);
      ResponseFrom(all, limit, m, all[m - 1], sent[1..], k - 1);
    }
  }

  /** Following the cursor from the first page over an unchanged roster, in responses of any positive size (the first
      of at least two members if a cursor is followed and some nick folds to the empty key): the responses number at
      most the members, each continues the ordered listing exactly where the one before stopped, and the walk is
      finished exactly when the whole listing has been sent.  So every member is visited exactly once, in key order. */
  lemma WalkVisitsEveryMember(members: Members, limit: int, sent: seq<nat>, k: nat)
    requires Walk(Listing(members.Keys), limit, "", sent) && k < |sent|
    requires "" in members && |sent| > 1 ==> sent[0] >= 2
    ensures |sent| <= Total(sent) <= |members| == |Listing(members.Keys)|
    ensures Stretch(Listing(members.Keys), Response(Listing(members.Keys), limit, "", sent, k), Total(sent[..k]), sent[k])
    ensures Finished(Listing(members.Keys), limit, "", sent) <==> Total(sent) == |members|
  {
    ListingIsResumable(members.Keys);
    FromFirstPage(Listing(members.Keys), limit, sent, k);
  }

  /** Every response continues the listing where the responses before it stopped. */
  ghost predicate Continues(all: seq<string>, limit: int, sent: seq<nat>)
    requires Walk(all, limit, "", sent)
  {
    forall k: nat :: k < |sent| ==> Stretch(all, Response(all, limit, "", sent, k), Total(sent[..k]), sent[k])
  }

  lemma EmptyIsFirst(all: seq<string>)
    requires Ordered(all) && "" in all
    ensures all[0] == "" && (|all| > 1 ==> all[1] != "")
  {
    var i :| 0 <= i < |all| && all[i] == "";
    assert i > 0 ==> Before(all[0], all[i]);
    if |all| > 1 { assert Before(all[0], all[1]); }
  }

  /** A first response of the empty key alone is followed by one that starts over. */
  lemma StartsOver(all: seq<string>, limit: int, sent: seq<nat>)
    requires Ordered(all) && "" in all && Walk(all, limit, "", sent) && |sent| > 1 && sent[0] == 1
    ensures !Stretch(all, Response(all, limit, "", sent, 1), Total(sent[..1]), sent[1])
  {
    EmptyIsFirst(all);
    var page := First(After(all, ""), limit);
    assert page[0] == "";
    assert Response(all, limit, "", sent, 1) == Response(all, limit, "", sent[1..], 0) == page[..sent[1]];
    assert Total(sent[..1]) == 1 by { assert sent[..1] == [1] && [1][1..] == []; }
    assert page[..sent[1]][0] == "";
    assert 1 + sent[1] <= |all| ==> all[1..1 + sent[1]][0] == all[1];
  }

  /** Exactly which walks over an unchanged roster continue the listing at every response: all of them, unless some nick
      folds to the empty key and a cursor is followed from a first response of that member alone. */
  lemma WalkContinuesIff(members: Members, limit: int, sent: seq<nat>)
    requires Walk(Listing(members.Keys), limit, "", sent)
    ensures Continues(Listing(members.Keys), limit, sent) <==> ("" in members && |sent| > 1 ==> sent[0] >= 2)
  {
    var all := Listing(members.Keys);
    ListingIsResumable(members.Keys);
    if "" in members && |sent| > 1 && sent[0] < 2 {
      ListingIsSorted(members.Keys);
      StartsOver(all, limit, sent);
    } else {
      forall k: nat | k < |sent| ensures Stretch(all, Response(all, limit, "", sent, k), Total(sent[..k]), sent[k]) {
        FromFirstPage(all, limit, sent, k);
      }
    }
  }

  lemma ListingIsResumable(keys: set<string>)
    ensures Resumable(Listing(keys)) && |Listing(keys)| == |keys| && ("" in Listing(keys) <==> "" in keys)
  {
    ListingIsSorted(keys);
    OrderedIsResumable(Listing(keys));
    assert "" in Elements(Listing(keys)) <==> "" in Listing(keys);
  }

  lemma FromFirstPage(all: seq<string>, limit: int, sent: seq<nat>, k: nat)
    requires Resumable(all) && Walk(all, limit, "", sent) && k < |sent|
    requires "" in all && |sent| > 1 ==> sent[0] >= 2
    ensures |sent| <= Total(sent) <= |all| && Total(sent[..k]) + sent[k] <= |all|
    ensures Stretch(all, Response(all, limit, "", sent, k), Total(sent[..k]), sent[k])
    ensures Finished(all, limit, "", sent) <==> Total(sent) == |all|
  {
    assert After(all, "") == all[0..];
    WalkFrom(all, limit, 0, "", sent);
    ResponseFrom(all, limit, 0, "", sent, k);
    SentBeforeIsTotal(sent, k);
  }

  /** With the empty key present and one member per response, every response repeats the first: the walk never ends. */
  lemma {:induction false} EmptyKeyRepeats(all: seq<string>, limit: int, sent: seq<nat>, k: nat)
    requires Ordered(all) && "" in all && |all| >= 2 && limit >= 1
    requires k < |sent| && forall i :: 0 <= i < |sent| ==> sent[i] == 1
    ensures Walk(all, limit, "", sent) && !Finished(all, limit, "", sent)
    ensures Response(all, limit, "", sent, k) == [""]
    decreases |sent|
  {
    EmptyIsFirst(all);
    if |sent| > 1 {
      EmptyKeyRepeats(all, limit, sent[1..], if k == 0 then 0 else k - 1);
    }
  }
}
