/** The session-token table: issuing under a generation check, expiry, capacity eviction, revocation, and the live
    sockets and streams that die with their token. */
module TokenTable {

  const MAX_SESSIONS := 128

  type Token = string

  /** Something to cancel when its token goes: a WebSocket or a media stream. */
  datatype Handle = Socket(id: nat) | Stream(id: nat)

  type Handles = map<Token, set<Handle>>

  /** The handles registered under each token, as pairs. */
  ghost function Pairs(m: Handles): set<(Token, Handle)> {
    set k, h | k in m && h in m[k] :: (k, h)
  }

  /** Whatever was registered is still registered or was handed out for cancelling, never both. */
  ghost predicate Conserved(before: Handles, after: Handles, cancels: set<(Token, Handle)>) {
    Pairs(after) + cancels == Pairs(before) && Pairs(after) !! cancels
  }

  lemma ConservedThen(a: Handles, b: Handles, c: Handles, x: set<(Token, Handle)>, y: set<(Token, Handle)>)
    requires Conserved(a, b, x) && Conserved(b, c, y)
    ensures Conserved(a, c, x + y)
  {
  }

  lemma OneFewer(m: map<Token, int>, k: Token)
    requires k in m
    ensures |m - {k}| == |m| - 1
  {
    assert (m - {k}).Keys == m.Keys - {k};
    assert |m.Keys - {k}| == |m.Keys| - 1;
  }

  lemma AtMostOneMore(m: map<Token, int>, k: Token, v: int)
    ensures |m[k := v]| <= |m| + 1 && m.Keys <= m[k := v].Keys
  {
    assert m[k := v].Keys == m.Keys + {k};
    assert |m.Keys + {k}| <= |m.Keys| + 1;
  }

  function Unexpired(all: map<Token, int>, now: int): map<Token, int> {
    map k | k in all && now <= all[k] :: all[k]
  }

  /** The tokens dropped from `all` expire no later than those kept. */
  predicate OldestDropped(all: map<Token, int>, kept: map<Token, int>) {
    && kept.Keys <= all.Keys
    && (forall k :: k in kept ==> kept[k] == all[k])
    && forall k, j :: k in all && k !in kept && j in kept ==> all[k] <= kept[j]
  }

  lemma DropOldest(all: map<Token, int>, kept: map<Token, int>, oldest: Token)
    requires OldestDropped(all, kept) && oldest in kept && forall k :: k in kept ==> kept[oldest] <= kept[k]
    ensures OldestDropped(all, kept - {oldest})
  {
  }

  lemma SameSize(a: map<Token, int>, b: map<Token, int>)
    requires a.Keys <= b.Keys && |a| == |b|
    ensures a.Keys == b.Keys
  {
    assert |b.Keys - a.Keys| == |b.Keys| - |a.Keys|;
  }

  /** Eviction stops as soon as there is room. */
  lemma NoneDroppedBelowCapacity(all: map<Token, int>, kept: map<Token, int>)
    requires OldestDropped(all, kept)
    requires |kept| == if |all| < MAX_SESSIONS then |all| else MAX_SESSIONS - 1
    ensures kept == all || |kept| == MAX_SESSIONS - 1
  {
    if |all| < MAX_SESSIONS { SameSize(kept, all); }
  }

  /** Every registered handle was given out. */
  ghost predicate Numbered(m: Handles, sockets: nat, streams: nat) {
    forall k, h :: k in m && h in m[k] ==> if h.Socket? then h.id < sockets else h.id < streams
  }

  lemma PairsAdded(m: Handles, token: Token, h: Handle)
    ensures var known := if token in m then m[token] else {};
            Pairs(m[token := known + {h}]) == Pairs(m) + {(token, h)}
  {
  }

  lemma PairsRemoved(m: Handles, token: Token, h: Handle)
    requires token in m
    ensures Pairs(m[token := m[token] - {h}]) == Pairs(m) - {(token, h)}
    ensures m[token] <= {h} ==> Pairs(m - {token}) == Pairs(m) - {(token, h)}
  {
  }

  class Table {
    var generation: nat
    var tokens: map<Token, int>
    var handles: Handles
    var nextSocket: nat
    var nextStream: nat

    constructor ()
      ensures Valid() && generation == 0 && tokens == map[]
    {
      generation, tokens, handles := 0, map[], map[];
      nextSocket, nextStream := 0, 0;
    }

    /** Nothing is registered under a token that is not in the table, nor under a number not given out. */
    ghost predicate Valid()
      reads this
    {
      handles.Keys <= tokens.Keys && Numbered(handles, nextSocket, nextStream)
    }

    method DeleteToken(token: Token) returns (cancels: set<(Token, Handle)>)
      requires Valid()
      modifies this`tokens, this`handles
      ensures Valid() && tokens == old(tokens) - {token} && Conserved(old(handles), handles, cancels)
      ensures cancels == set h | token in old(handles) && h in old(handles)[token] :: (token, h)
    {
      cancels := {};
      tokens := tokens - {token};
      if token in handles {
        cancels := set h | h in handles[token] :: (token, h);
        handles := handles - {token};
      }
    }

    /** Drops the tokens that have expired. */
    method Prune(now: int) returns (cancels: set<(Token, Handle)>)
      requires Valid()
      modifies this`tokens, this`handles
      ensures Valid() && Conserved(old(handles), handles, cancels)
      ensures tokens == Unexpired(old(tokens), now)
    {
      cancels := {};
      var todo := tokens.Keys;
      while todo != {}
        invariant Valid() && Conserved(old(handles), handles, cancels) && todo <= tokens.Keys
        invariant forall k :: k in tokens <==> k in old(tokens) && (k in todo || now <= old(tokens)[k])
        invariant forall k :: k in tokens ==> tokens[k] == old(tokens)[k]
        decreases todo
      {
        var k :| k in todo;
        todo := todo - {k};
        if now > tokens[k] {
          ghost var before := handles;
          var more := DeleteToken(k);
          ConservedThen(old(handles), before, handles, cancels, more);
          cancels := cancels + more;
        }
      }
    }

    /** A token that expires no later than any other. */
    method Oldest() returns (oldest: Token)
      requires tokens != map[]
      ensures oldest in tokens && forall k :: k in tokens ==> tokens[oldest] <= tokens[k]
    {
      oldest :| oldest in tokens;
      var todo := tokens.Keys - {oldest};
      while todo != {}
        invariant todo <= tokens.Keys && oldest in tokens
        invariant forall k :: k in tokens && k !in todo ==> tokens[oldest] <= tokens[k]
        decreases todo
      {
        var k :| k in todo;
        if tokens[k] < tokens[oldest] { oldest := k; }
        todo := todo - {k};
      }
    }

    /** Evicts oldest-first down to one below capacity. */
    method MakeRoom() returns (cancels: set<(Token, Handle)>)
      requires Valid()
      modifies this`tokens, this`handles
      ensures Valid() && Conserved(old(handles), handles, cancels) && OldestDropped(old(tokens), tokens)
      ensures |tokens| == if |old(tokens)| < MAX_SESSIONS then |old(tokens)| else MAX_SESSIONS - 1
    {
      cancels := {};
      while |tokens| >= MAX_SESSIONS
        invariant Valid() && Conserved(old(handles), handles, cancels) && OldestDropped(old(tokens), tokens)
        invariant |old(tokens)| < MAX_SESSIONS ==> |tokens| == |old(tokens)|
        invariant |old(tokens)| >= MAX_SESSIONS ==> |tokens| >= MAX_SESSIONS - 1
        decreases |tokens|
      {
        var oldest := Oldest();
        OneFewer(tokens, oldest);
        DropOldest(old(tokens), tokens, oldest);
        ghost var before := handles;
        var more := DeleteToken(oldest);
        ConservedThen(old(handles), before, handles, cancels, more);
        cancels := cancels + more;
      }
    }

    /** The room issueToken makes: first the expired tokens go, then the oldest down to one below capacity. */
    method Reclaim(now: int) returns (cancels: set<(Token, Handle)>)
      requires Valid()
      modifies this`tokens, this`handles
      ensures Valid() && Conserved(old(handles), handles, cancels) && |tokens| < MAX_SESSIONS
      ensures OldestDropped(Unexpired(old(tokens), now), tokens)
      ensures tokens == Unexpired(old(tokens), now) || |tokens| == MAX_SESSIONS - 1
    {
      cancels := Prune(now);
      ghost var before, all := handles, tokens;
      var more := MakeRoom();
      ConservedThen(old(handles), before, handles, cancels, more);
      NoneDroppedBelowCapacity(all, tokens);
      cancels := cancels + more;
    }

    /** issueToken: refused exactly when a rotation moved the generation; otherwise the new token is live, at most
        MAX_SESSIONS are, and of the unexpired old ones the oldest were dropped, only as far as capacity demands.
        Handles of dropped tokens are handed out for cancelling. */
    method IssueToken(snapshot: nat, token: Token, now: int, ttl: int)
      returns (ok: bool, cancels: set<(Token, Handle)>, ghost kept: map<Token, int>)
      requires Valid()
      modifies this`tokens, this`handles
      ensures Valid() && Conserved(old(handles), handles, cancels) && (ok <==> generation == snapshot)
      ensures !ok ==> tokens == old(tokens) && handles == old(handles)
      ensures ok ==> tokens == kept[token := now + ttl] && |tokens| <= MAX_SESSIONS
      ensures ok ==> OldestDropped(Unexpired(old(tokens), now), kept)
      ensures ok ==> kept == Unexpired(old(tokens), now) || |kept| == MAX_SESSIONS - 1
    {
      cancels, kept := {}, tokens;
      ok := generation == snapshot;
      if ok {
        cancels := Reclaim(now);
        kept := tokens;
        AtMostOneMore(kept, token, now + ttl);
        tokens := tokens[token := now + ttl];
      } else {
        assert Conserved(handles, handles, {});
      }
    }

    /** tokenValid: live exactly when present and not expired; an expired one goes, with its handles. */
    method TokenValid(token: Token, now: int) returns (live: bool, cancels: set<(Token, Handle)>)
      requires Valid()
      modifies this`tokens, this`handles
      ensures Valid() && Conserved(old(handles), handles, cancels)
      ensures live <==> token in old(tokens) && now <= old(tokens)[token]
      ensures tokens == if live then old(tokens) else old(tokens) - {token}
    {
      live, cancels := token in tokens, {};
      if live && now > tokens[token] {
        cancels := DeleteToken(token);
        live := false;
      }
      assert token !in tokens ==> tokens == tokens - {token};
    }

    /** registerWSCancel and registerStreamCancel: accepted exactly under a live token, as a handle of its own. */
    method Register(token: Token, stream: bool, now: int) returns (ok: bool, handle: Handle)
      requires Valid()
      modifies this`handles, this`nextSocket, this`nextStream
      ensures Valid() && (ok <==> token != "" && token in tokens && now <= tokens[token])
      ensures !ok ==> handles == old(handles)
      ensures ok ==> Pairs(handles) == Pairs(old(handles)) + {(token, handle)} && handle.Stream? == stream
      ensures ok ==> forall k :: (k, handle) !in Pairs(old(handles))
    {
      handle := if stream then Stream(nextStream) else Socket(nextSocket);
      ok := token != "" && token in tokens && now <= tokens[token];
      if ok {
        PairsAdded(handles, token, handle);
        var known := if token in handles then handles[token] else {};
        handles := handles[token := known + {handle}];
        if stream { nextStream := nextStream + 1; } else { nextSocket := nextSocket + 1; }
      }
    }

    /** The unregister a registration returns: exactly that handle goes, whether or not its token still lives. */
    method Unregister(token: Token, handle: Handle)
      requires Valid()
      modifies this`handles
      ensures Valid() && Pairs(handles) == Pairs(old(handles)) - {(token, handle)}
    {
      if token in handles {
        PairsRemoved(handles, token, handle);
        if handles[token] <= {handle} {
          handles := handles - {token};
        } else {
          handles := handles[token := handles[token] - {handle}];
        }
      }
    }

    /** The rotation's sweep: a new generation, no token left, and every handle handed out for cancelling. */
    method RevokeAll() returns (cancels: set<(Token, Handle)>)
      requires Valid()
      modifies this
      ensures Valid() && generation == old(generation) + 1 && tokens == map[] && handles == map[]
      ensures cancels == Pairs(old(handles))
    {
      generation := generation + 1;
      cancels := {};
      while tokens != map[]
        invariant Valid() && Conserved(old(handles), handles, cancels) && generation == old(generation) + 1
        decreases |tokens|
      {
        var k :| k in tokens;
        OneFewer(tokens, k);
        ghost var before := handles;
        var more := DeleteToken(k);
        ConservedThen(old(handles), before, handles, cancels, more);
        cancels := cancels + more;
      }
      assert handles == map[];
    }
  }
}
