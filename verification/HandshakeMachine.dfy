/** The registration state machine as the mutable object the connection drives, proved to perform exactly the
    reactions of `Handshake`. */
module HandshakeMachine {
  import opened Wrappers
  import opened Text
  import opened Ordering
  import opened Scram
  import opened Sasl
  import opened Handshake

  lemma SortedRequests(env: Env, caps: map<string, string>, out: seq<string>, reqs: seq<string>, chosen: set<string>)
    requires multiset(out) == multiset(chosen) == multiset(reqs) && Ordered(reqs)
    requires chosen == env.wanted * caps.Keys + if env.cfg.sasl.Some? && "sasl" in caps then {"sasl"} else {}
    ensures reqs == Listing(Requests(env, caps))
  {
    assert forall x :: x in reqs <==> x in multiset(reqs);
    assert Elements(reqs) == chosen;
    ListingIsUnique(reqs, chosen);
  }

  // ---- The recorded STS duration changes nothing else ------------------------------------------------------------

  /** What the connection stores of a state's STS duration. */
  function Policies(st: State): seq<int> {
    if st.stsDuration.Some? then [st.stsDuration.value] else []
  }

  function Bare(st: State): State {
    st.(stsDuration := None)
  }

  /** Recorded only over TLS, and not before the capability list is complete. */
  predicate Recorded(env: Env, st: State) {
    st.stsDuration.Some? ==> env.secure && st.phase != CapLs
  }

  /** Past the capability list the duration is carried along unread. */
  predicate Carried(st: State, r: Reply, b: Reply) {
    b == Reply(Bare(r.st), r.out, r.verdict) && r.st.stsDuration == st.stsDuration && r.st.phase != CapLs
  }

  lemma CapAckCarries(env: Env, st: State, m: Message)
    requires st.phase != CapLs && |m.params| >= 2
    ensures Carried(st, OnCapAck(env, st, m), OnCapAck(env, Bare(st), m))
  {
  }

  lemma CapNakCarries(env: Env, st: State)
    requires st.phase != CapLs
    ensures Carried(st, OnCapNak(env, st), OnCapNak(env, Bare(st)))
  {
  }

  lemma CapCarries(env: Env, st: State, m: Message)
    requires st.phase != CapLs
    ensures Carried(st, OnCap(env, st, m), OnCap(env, Bare(st), m))
  {
    if |m.params| >= 2 {
      CapAckCarries(env, st, m);
      CapNakCarries(env, st);
    }
  }

  lemma ChallengeCarries(p: Primitives, st: State, mech: Mech, challenge: string)
    requires st.phase != CapLs
    ensures Carried(st, OnChallenge(p, st, mech, challenge), OnChallenge(p, Bare(st), mech, challenge))
  {
  }

  lemma AuthenticateCarries(env: Env, st: State, m: Message)
    requires st.phase != CapLs
    ensures Carried(st, OnAuthenticate(env, st, m), OnAuthenticate(env, Bare(st), m))
  {
    if st.phase == AuthChallenge && st.mech.Some? {
      var (buf, event) := Feed(st.challengeBuf, Param(m, 0));
      if event.Decode? && DecodeChallenge(env.p, event.text).Some? {
        ChallengeCarries(env.p, st.(challengeBuf := buf), st.mech.value, DecodeChallenge(env.p, event.text).value);
      }
    }
  }

  lemma WelcomeCarries(env: Env, st: State, m: Message)
    requires st.phase != CapLs
    ensures Carried(st, OnWelcome(env, st, m), OnWelcome(env, Bare(st), m))
  {
  }

  lemma NickCarries(env: Env, st: State)
    requires st.phase != CapLs
    ensures Carried(st, OnNickInUse(env, st), OnNickInUse(env, Bare(st)))
  {
  }

  lemma ReactCarries(env: Env, st: State, m: Message)
    requires st.phase != CapLs
    ensures Carried(st, React(env, st, m), React(env, Bare(st), m))
  {
    if m.command == "CAP" {
      CapCarries(env, st, m);
    } else if m.command == "AUTHENTICATE" {
      AuthenticateCarries(env, st, m);
    } else if m.command == "001" {
      WelcomeCarries(env, st, m);
    } else if m.command == "433" || m.command == "436" || m.command == "437" {
      NickCarries(env, st);
    }
  }

  predicate Records(env: Env, r: Reply) {
    r.st.stsDuration.Some? ==> env.secure && (r.verdict.Continue? ==> r.st.phase != CapLs)
  }

  lemma NegotiateRecords(env: Env, st: State)
    requires st.stsDuration.Some? ==> env.secure
    ensures Records(env, Negotiate(env, st))
  {
  }

  lemma SettleRecords(env: Env, st: State)
    requires st.stsDuration.None?
    ensures Records(env, Settle(env, st))
  {
    NegotiateRecords(env, Noted(env, st));
  }

  lemma CapLsRecords(env: Env, st: State, m: Message)
    requires st.phase == CapLs && st.stsDuration.None? && |m.params| >= 2
    ensures Records(env, OnCapLs(env, st, m))
  {
    SettleRecords(env, Advertised(st, m));
  }

  lemma CapRecords(env: Env, st: State, m: Message)
    requires st.phase == CapLs && st.stsDuration.None?
    ensures Records(env, OnCap(env, st, m))
  {
    if |m.params| >= 2 && Upper(m.params[1]) == "LS" { CapLsRecords(env, st, m); }
  }

  /** Reacting with the duration already handed over is the same, and nothing is handed over twice. */
  predicate Alike(env: Env, st: State, r: Reply, b: Reply) {
    && b.out == r.out && b.verdict == r.verdict && Bare(b.st) == Bare(r.st)
    && Policies(r.st) == Policies(st) + Policies(b.st)
    && (r.st.stsDuration.Some? ==> env.secure) && (r.verdict.Continue? ==> Recorded(env, r.st))
  }

  lemma ReactAlike(env: Env, st: State, m: Message)
    requires Recorded(env, st)
    ensures Alike(env, st, React(env, st, m), React(env, Bare(st), m))
  {
    if st.phase == CapLs {
      assert Bare(st) == st;
      FirstAlike(env, st, m);
    } else {
      ReactCarries(env, st, m);
    }
  }

  lemma FirstAlike(env: Env, st: State, m: Message)
    requires st.phase == CapLs && st.stsDuration.None?
    ensures Alike(env, st, React(env, st, m), React(env, st, m))
  {
    assert Policies(st) == [];
    if m.command == "CAP" {
      CapRecords(env, st, m);
    } else {
      assert React(env, st, m).st.stsDuration.None?;
    }
  }

  class Machine {
    const env: Env
    var phase: Phase
    var caps: map<string, string>
    var enabled: set<string>
    var nick: string
    var nickTries: nat
    var saslDone: bool
    var nakRetried: bool
    var lastReq: seq<string>
    var mech: Option<Mech>
    var mechErr: bool
    var passSent: bool
    var challengeBuf: string
    var stsDuration: Option<int>
    ghost var heard: seq<string>
    ghost var said: seq<string>

    ghost function View(): State
      reads this
    {
      State(phase, caps, enabled, nick, nickTries, saslDone, nakRetried, lastReq, mech, mechErr, passSent, challengeBuf,
            stsDuration, heard, said)
    }

    constructor (env: Env)
      ensures this.env == env && View() == Initial(env.cfg)
    {
      this.env := env;
      phase, caps, enabled, nick, nickTries := CapLs, map[], {}, env.cfg.nick, 0;
      saslDone, nakRetried, lastReq, mech, mechErr := false, false, [], None, false;
      passSent, challengeBuf, stsDuration, heard, said := false, "", None, [], [];
    }

    method EmitPass() returns (out: seq<Message>)
      modifies this`passSent
      ensures out == PassLine(env.cfg, old(View())) && View() == PassState(env.cfg, old(View()))
    {
      if env.cfg.pass == "" || passSent {
        return [];
      }
      passSent := true;
      return [Message("PASS", [env.cfg.pass])];
    }

    method Open() returns (out: seq<Message>)
      requires View() == Initial(env.cfg)
      modifies this`passSent
      ensures Reply(View(), out, Continue) == Start(env)
    {
      out := [Message("CAP", ["LS", "302"])];
      if !env.secure && (env.cfg.pass != "" || env.cfg.sasl.Some?) {
        return;
      }
      if env.secure {
        var pass := EmitPass();
        out := out + pass;
      }
      var username := if env.cfg.username == "" then env.cfg.nick else env.cfg.username;
      var realname := if env.cfg.realname == "" then env.cfg.nick else env.cfg.realname;
      out := out + [Message("NICK", [nick]), Message("USER", [username, "0", "*", realname])];
    }

    method Welcome(m: Message) returns (verdict: Verdict)
      modifies this`phase, this`nick
      ensures Reply(View(), [], verdict) == OnWelcome(env, old(View()), m)
    {
      if !env.secure && env.cfg.pass != "" {
        return Failed;
      }
      if !env.secure && env.cfg.sasl.Some? {
        return Failed;
      }
      if env.cfg.sasl.Some? && !saslDone {
        return Failed;
      }
      phase := Done;
      var p := Param(m, 0);
      if p != "" && p != "*" {
        if |p| > MAX_NICK_BYTES {
          return Failed;
        }
        nick := p;
      }
      return Registered;
    }

    method NickInUse() returns (out: seq<Message>, verdict: Verdict)
      modifies this`nick, this`nickTries
      ensures Reply(View(), out, verdict) == OnNickInUse(env, old(View()))
    {
      if !env.secure && (env.cfg.pass != "" || env.cfg.sasl.Some?) {
        return [], Failed;
      }
      nickTries := nickTries + 1;
      if nickTries > 3 {
        return [], Failed;
      }
      nick := env.fallback(env.cfg.nick, nickTries);
      return [Message("NICK", [nick])], Continue;
    }

    method ParseCapList(list: string)
      modifies this`caps
      ensures caps == AddCaps(Fields(list), old(caps))
    {
      var tokens := Fields(list);
      for i := 0 to |tokens|
        invariant AddCaps(tokens[i..], caps) == AddCaps(tokens, old(caps))
      {
        assert tokens[i..][1..] == tokens[i + 1..];
        var (name, value) := NameAndValue(tokens[i]);
        if name in caps || |caps| < MAX_ADVERTISED {
          caps := caps[name := value];
        }
      }
    }

    method WantedCaps() returns (out: seq<string>)
      ensures multiset(out) == multiset(env.wanted * caps.Keys)
    {
      out := [];
      ghost var chosen: set<string> := {};
      var todo := caps.Keys;
      while todo != {}
        invariant todo <= caps.Keys && chosen == env.wanted * (caps.Keys - todo)
        invariant multiset(out) == multiset(chosen)
        decreases todo
      {
        var name :| name in todo;
        if name in env.wanted {
          out := out + [name];
          chosen := chosen + {name};
        }
        todo := todo - {name};
      }
      assert chosen == env.wanted * caps.Keys;
    }

    method CapsToRequest() returns (reqs: seq<string>)
      ensures reqs == Listing(Requests(env, caps))
    {
      var out := WantedCaps();
      ghost var chosen := env.wanted * caps.Keys;
      if env.cfg.sasl.Some? && "sasl" in caps && "sasl" !in out {
        assert "sasl" !in multiset(out);
        out := out + ["sasl"];
        chosen := chosen + {"sasl"};
      }
      DistinctIn(out, chosen);
      reqs := SortStrings(out);
      SortedRequests(env, caps, out, reqs, chosen);
    }

    method ChooseMech() returns (ok: bool)
      modifies this`mech, this`mechErr
      ensures ok <==> env.cfg.sasl.None? || "sasl" in caps
      ensures !ok ==> View() == old(View())
      ensures ok ==> View() == old(View()).(
                mech := if env.cfg.sasl.Some? then NewMech(env.cfg.sasl.value, caps["sasl"]) else old(mech),
                mechErr := old(mechErr) || (env.cfg.sasl.Some? && NewMech(env.cfg.sasl.value, caps["sasl"]).None?))
    {
      if env.cfg.sasl.None? {
        return true;
      }
      if "sasl" !in caps {
        return false;
      }
      mech := NewMech(env.cfg.sasl.value, caps["sasl"]);
      if mech.None? {
        mechErr := true;
      }
      return true;
    }

    method NegotiateCaps() returns (out: seq<Message>, verdict: Verdict)
      modifies this`mech, this`mechErr, this`passSent, this`phase, this`lastReq
      ensures Reply(View(), out, verdict) == Negotiate(env, old(View()))
    {
      var ok := ChooseMech();
      if !ok {
        return [], Failed;
      }
      out := EmitPass();
      var reqs := CapsToRequest();
      verdict := Continue;
      if reqs == [] {
        phase := AwaitWelcome;
        out := out + [CapEnd()];
      } else {
        phase := CapAck;
        lastReq := reqs;
        out := out + [Message("CAP", ["REQ", Join(reqs, ' ')])];
      }
    }

    method CapLS(m: Message) returns (out: seq<Message>, verdict: Verdict)
      requires |m.params| >= 2
      modifies this`caps, this`stsDuration, this`mech, this`mechErr, this`passSent, this`phase, this`lastReq
      ensures Reply(View(), out, verdict) == OnCapLs(env, old(View()), m)
    {
      if phase != CapLs {
        return [], Continue;
      }
      var more := |m.params| >= 4 && m.params[2] == "*";
      ParseCapList(m.params[|m.params| - 1]);
      assert View() == Advertised(old(View()), m);
      if more {
        return [], Continue;
      }
      if "sts" in caps {
        var v := ParseSts(caps["sts"]);
        if !env.secure && v.port > 0 {
          return [], Upgrade(v.port);
        }
        if env.secure && v.duration.Some? {
          stsDuration := v.duration;
        }
      }
      assert View() == Noted(env, Advertised(old(View()), m));
      if !env.secure && (env.cfg.pass != "" || env.cfg.sasl.Some?) {
        return [], Failed;
      }
      out, verdict := NegotiateCaps();
    }

    method CapACK(m: Message) returns (out: seq<Message>, verdict: Verdict)
      requires |m.params| >= 2
      modifies this`enabled, this`phase
      ensures Reply(View(), out, verdict) == OnCapAck(env, old(View()), m)
    {
      if phase != CapAck {
        return [], Continue;
      }
      var tokens := Fields(m.params[|m.params| - 1]);
      for i := 0 to |tokens|
        invariant AddAcks(env.wanted, tokens[i..], enabled) == AddAcks(env.wanted, tokens, old(enabled))
        invariant phase == old(phase)
      {
        assert tokens[i..][1..] == tokens[i + 1..];
        var tok := tokens[i];
        if "-" <= tok {
          enabled := enabled - {tok[1..]};
        } else if tok in env.wanted || tok == "sasl" {
          enabled := enabled + {tok};
        }
      }
      if env.cfg.sasl.Some? && "sasl" in enabled && mechErr {
        return [Message("QUIT", ["SASL mechanism unavailable"])], Failed;
      }
      if mech.Some? && "sasl" in enabled && !saslDone {
        phase := AuthChallenge;
        return [Message("AUTHENTICATE", [Name(mech.value)])], Continue;
      }
      phase := AwaitWelcome;
      return [CapEnd()], Continue;
    }

    method CapNAK() returns (out: seq<Message>, verdict: Verdict)
      modifies this`phase, this`nakRetried, this`lastReq
      ensures Reply(View(), out, verdict) == OnCapNak(env, old(View()))
    {
      if phase != CapAck {
        return [], Continue;
      }
      if env.cfg.sasl.Some? {
        if !nakRetried && |lastReq| > 1 {
          nakRetried := true;
          lastReq := ["sasl"];
          return [Message("CAP", ["REQ", "sasl"])], Continue;
        }
        return [], Failed;
      }
      phase := AwaitWelcome;
      return [CapEnd()], Continue;
    }

    method ChallengeMech(challenge: string) returns (out: seq<Message>, verdict: Verdict)
      requires mech.Some?
      modifies this`mech, this`heard, this`said
      ensures Reply(View(), out, verdict) == OnChallenge(env.p, old(View()), old(mech.value), challenge)
    {
      var (next, answer) := Answer(env.p, mech.value, challenge);
      mech := Some(next);
      heard := heard + [challenge];
      if answer.None? {
        return [Message("AUTHENTICATE", ["*"])], Failed;
      }
      said := said + [answer.value];
      var chunks := ChunkAuthenticate(env.p.encode(answer.value));
      out := [];
      for i := 0 to |chunks|
        invariant out == Authenticates(chunks)[..i]
      {
        out := out + [Message("AUTHENTICATE", [chunks[i]])];
      }
      return out, Continue;
    }

    method Authenticate(m: Message) returns (out: seq<Message>, verdict: Verdict)
      modifies this`challengeBuf, this`mech, this`heard, this`said
      ensures Reply(View(), out, verdict) == OnAuthenticate(env, old(View()), m)
    {
      if phase != AuthChallenge || mech.None? {
        return [], Continue;
      }
      var arg := Param(m, 0);
      if arg != "+" {
        if |challengeBuf| + |arg| > MAX_CHALLENGE {
          challengeBuf := "";
          return [], Failed;
        }
        challengeBuf := challengeBuf + arg;
      }
      if |arg| == CHUNK {
        return [], Continue;
      }
      var full := challengeBuf;
      challengeBuf := "";
      if full == "" {
        full := "+";
      }
      var challenge := DecodeChallenge(env.p, full);
      if challenge.None? {
        return [], Failed;
      }
      out, verdict := ChallengeMech(challenge.value);
    }

    method Cap(m: Message) returns (out: seq<Message>, verdict: Verdict)
      modifies this
      ensures Reply(View(), out, verdict) == OnCap(env, old(View()), m)
    {
      if |m.params| < 2 {
        return [], Failed;
      }
      var sub := Upper(m.params[1]);
      if sub == "LS" {
        out, verdict := CapLS(m);
      } else if sub == "ACK" {
        out, verdict := CapACK(m);
      } else if sub == "NAK" {
        out, verdict := CapNAK();
      } else {
        return [], Continue;
      }
    }

    method Handle(m: Message) returns (out: seq<Message>, verdict: Verdict)
      modifies this
      ensures Reply(View(), out, verdict) == React(env, old(View()), m)
    {
      var c := m.command;
      out, verdict := [], Continue;
      if c == "PING" {
        out := [Pong(m)];
      } else if c == "CAP" {
        out, verdict := Cap(m);
      } else if c == "AUTHENTICATE" {
        out, verdict := Authenticate(m);
      } else if c == "001" {
        verdict := Welcome(m);
      } else if c == "433" || c == "436" || c == "437" {
        out, verdict := NickInUse();
      } else if c == "903" {
        if mech.None? {
          verdict := if env.cfg.sasl.Some? then Failed else Continue;
        } else if !Completed(mech.value) {
          verdict := Failed;
        } else {
          saslDone := true;
          phase := AwaitWelcome;
          out := [CapEnd()];
        }
      } else if c == "ERROR" || c == "432" || c == "464" || c == "902" || c == "904" || c == "905" || c == "906" || c == "907" {
        verdict := Failed;
      }
    }
  }

  /** One turn of the registration loop: handle the message, then hand over a recorded STS duration.  `st` is the
      state of the reference run, which keeps the duration. */
  method Turn(hs: Machine, m: Message, ghost st: State) returns (out: seq<Message>, verdict: Verdict, stored: seq<int>)
    requires hs.View() == Bare(st) && Recorded(hs.env, st)
    modifies hs
    ensures Reply(hs.View(), out, verdict) == Reply(Bare(React(hs.env, st, m).st), React(hs.env, st, m).out,
                                                    React(hs.env, st, m).verdict)
    ensures Policies(React(hs.env, st, m).st) == Policies(st) + stored
    ensures verdict.Continue? ==> Recorded(hs.env, React(hs.env, st, m).st)
    ensures React(hs.env, st, m).st.stsDuration.Some? ==> hs.env.secure
  {
    ReactAlike(hs.env, st, m);
    out, verdict := hs.Handle(m);
    stored := [];
    if hs.stsDuration.Some? {
      stored := [hs.stsDuration.value];
      hs.stsDuration := None;
    }
  }

  // ---- The registration loop --------------------------------------------------------------------------------------

  /** What is left of a run after one more message; nothing, after a verdict. */
  ghost function Rest(env: Env, r: Reply, msgs: seq<Message>): Reply {
    if r.verdict.Continue? then Run(env, r.st, msgs) else Reply(r.st, [], r.verdict)
  }

  /** The whole run as what was sent so far and what is left. */
  ghost predicate Split(env: Env, msgs: seq<Message>, sent: seq<Message>, rest: Reply) {
    Registration(env, msgs) == Reply(rest.st, sent + rest.out, rest.verdict)
  }

  lemma RunUnrolls(env: Env, msgs: seq<Message>, i: nat, st: State)
    requires i < |msgs|
    ensures var r := React(env, st, msgs[i]);
            var rest := Rest(env, r, msgs[i + 1..]);
            Run(env, st, msgs[i..]) == Reply(rest.st, r.out + rest.out, rest.verdict)
  {
    assert msgs[i..][0] == msgs[i] && msgs[i..][1..] == msgs[i + 1..];
  }

  lemma SplitMore(env: Env, msgs: seq<Message>, sent: seq<Message>, whole: Reply, out: seq<Message>, rest: Reply)
    requires Split(env, msgs, sent, whole) && whole == Reply(rest.st, out + rest.out, rest.verdict)
    ensures Split(env, msgs, sent + out, rest)
  {
    assert sent + out + rest.out == sent + (out + rest.out);
  }

  lemma SplitStep(env: Env, msgs: seq<Message>, i: nat, st: State, sent: seq<Message>)
    requires i < |msgs| && Split(env, msgs, sent, Run(env, st, msgs[i..]))
    ensures var r := React(env, st, msgs[i]); Split(env, msgs, sent + r.out, Rest(env, r, msgs[i + 1..]))
  {
    RunUnrolls(env, msgs, i, st);
    var r := React(env, st, msgs[i]);
    SplitMore(env, msgs, sent, Run(env, st, msgs[i..]), r.out, Rest(env, r, msgs[i + 1..]));
  }

  lemma SplitEnds(env: Env, msgs: seq<Message>, sent: seq<Message>, st: State, verdict: Verdict)
    requires Split(env, msgs, sent, Rest(env, Reply(st, [], verdict), []))
    ensures Registration(env, msgs) == Reply(st, sent, verdict)
  {
    assert sent + [] == sent;
  }

  lemma Promises(env: Env, msgs: seq<Message>)
    ensures var r := Registration(env, msgs);
            && (r.verdict.Registered? && Credentialed(env.cfg) ==> env.secure)
            && (r.verdict.Registered? && env.cfg.sasl.Some? ==> r.st.mech.Some? && Completed(r.st.mech.value))
            && (r.verdict.Registered? && env.cfg.sasl.Some? && r.st.mech.value.ScramSha256? ==>
                  Authenticated(env.p, Login(env.cfg.sasl.value), r.st.heard, r.st.said))
            && (!env.secure && Credentialed(env.cfg) ==> AllHarmless(r.out) && !r.verdict.Registered?)
            && Passes(r.out) <= 1
  {
    if Registration(env, msgs).verdict.Registered? { RegisteredIsAuthenticated(env, msgs); }
    if !env.secure && Credentialed(env.cfg) { InsecureRunDisclosesNothing(env, msgs); }
    PassSentAtMostOnce(env, msgs);
  }

  /** register: open, then handle each message, hand over a recorded STS duration, send the answers and stop at a
      verdict.  `stored` are the durations handed over; `Continue` is what a broken read or the timeout leaves. */
  method Register(env: Env, msgs: seq<Message>)
    returns (hs: Machine, sent: seq<Message>, verdict: Verdict, stored: seq<int>)
    ensures fresh(hs) && hs.env == env
    ensures var r := Registration(env, msgs);
            sent == r.out && verdict == r.verdict && hs.View() == Bare(r.st) && stored == Policies(r.st)
    ensures verdict.Registered? && Credentialed(env.cfg) ==> env.secure
    ensures verdict.Registered? && env.cfg.sasl.Some? ==> hs.mech.Some? && Completed(hs.mech.value)
    ensures verdict.Registered? && env.cfg.sasl.Some? && hs.mech.value.ScramSha256? ==>
            Authenticated(env.p, Login(env.cfg.sasl.value), hs.heard, hs.said)
    ensures !env.secure && Credentialed(env.cfg) ==> AllHarmless(sent) && !verdict.Registered?
    ensures Passes(sent) <= 1
    ensures stored != [] ==> env.secure
  {
    hs := new Machine(env);
    sent := hs.Open();
    verdict, stored := Continue, [];
    ghost var st := hs.View();
    var i := 0;
    assert msgs[0..] == msgs;
    while i < |msgs| && verdict.Continue?
      invariant 0 <= i <= |msgs| && fresh(hs) && hs.env == env
      invariant hs.View() == Bare(st) && stored == Policies(st)
      invariant verdict.Continue? ==> Recorded(env, st)
      invariant st.stsDuration.Some? ==> env.secure
      invariant Split(env, msgs, sent, Rest(env, Reply(st, [], verdict), msgs[i..]))
    {
      SplitStep(env, msgs, i, st, sent);
      var out, more;
      out, verdict, more := Turn(hs, msgs[i], st);
      st := React(env, st, msgs[i]).st;
      stored := stored + more;
      sent := sent + out;
      i := i + 1;
    }
    assert Rest(env, Reply(st, [], verdict), msgs[i..]) == Rest(env, Reply(st, [], verdict), []);
    SplitEnds(env, msgs, sent, st, verdict);
    Promises(env, msgs);
  }
}
