/** Connection registration as a reaction of the client to each server message (section 3.1 of RFC 2812, IRCv3
    capability negotiation 302, sasl-3.1), and what holds over every run of it. */
module Handshake {
  import opened Wrappers
  import opened Text
  import opened Ordering
  import opened Scram
  import opened Sasl

  const MAX_ADVERTISED := 512
  const MAX_NICK_BYTES := 512
  const LINE_LENGTH := 512
  const MAX_STS_SECONDS := 100 * 365 * 24 * 60 * 60

  datatype Config = Config(nick: string, username: string, realname: string, pass: string, sasl: Option<SaslConfig>)

  /** `secure` is whether this connection runs over TLS; `wanted` are the capabilities asked for when offered (sasl is
      added when configured); `fallback` derives the nick for each retry. */
  datatype Env = Env(cfg: Config, secure: bool, p: Primitives, wanted: set<string>, fallback: (string, int) -> string)

  datatype Message = Message(command: string, params: seq<string>)

  datatype Phase = CapLs | CapAck | AuthChallenge | AwaitWelcome | Done

  /** `heard` and `said` are the history of the SASL exchange: challenges given to the mechanism and its responses. */
  datatype State = State(
    phase: Phase, caps: map<string, string>, enabled: set<string>, nick: string, nickTries: nat, saslDone: bool,
    nakRetried: bool, lastReq: seq<string>, mech: Option<Mech>, mechErr: bool, passSent: bool, challengeBuf: string,
    stsDuration: Option<int>, heard: seq<string>, said: seq<string>)

  /** Go on, registered, give up, or redial over TLS on an advertised port. */
  datatype Verdict = Continue | Registered | Failed | Upgrade(port: int)

  datatype Reply = Reply(st: State, out: seq<Message>, verdict: Verdict)

  predicate Credentialed(cfg: Config) {
    cfg.pass != "" || cfg.sasl.Some?
  }

  function Initial(cfg: Config): State {
    State(CapLs, map[], {}, cfg.nick, 0, false, false, [], None, false, false, "", None, [], [])
  }

  // ---- Parsing ----------------------------------------------------------------------------------------------------

  /** strings.Fields. */
  function Fields(s: string): seq<string> {
    FieldsFrom(s, "")
  }

  function FieldsFrom(s: string, word: string): seq<string> {
    if s == "" then (if word == "" then [] else [word])
    else if IsSpace(s[0]) then (if word == "" then [] else [word]) + FieldsFrom(s[1..], "")
    else FieldsFrom(s[1..], word + [s[0]])
  }

  function NameAndValue(token: string): (string, string) {
    match Cut(token, '=')
    case None => (token, "")
    case Some(kv) => kv
  }

  /** parseCapList: adds the tokens of one line, ignoring new names once the map is full. */
  function AddCaps(tokens: seq<string>, caps: map<string, string>): map<string, string>
    decreases |tokens|
  {
    if tokens == [] then caps
    else
      var (name, value) := NameAndValue(tokens[0]);
      AddCaps(tokens[1..], if name !in caps && |caps| >= MAX_ADVERTISED then caps else caps[name := value])
  }

  /** The capabilities enabled after the tokens of an ACK: only ones that may have been asked for. */
  function AddAcks(wanted: set<string>, tokens: seq<string>, enabled: set<string>): set<string>
    decreases |tokens|
  {
    if tokens == [] then enabled
    else
      var tok := tokens[0];
      AddAcks(wanted, tokens[1..],
              if "-" <= tok then enabled - {tok[1..]}
              else if tok in wanted || tok == "sasl" then enabled + {tok}
              else enabled)
  }

  datatype Sts = Sts(port: int, duration: Option<int>)

  function AddSts(tokens: seq<string>, v: Sts): Sts
    decreases |tokens|
  {
    if tokens == [] then v
    else
      var (k, val) := NameAndValue(tokens[0]);
      var n := Atoi(val);
      AddSts(tokens[1..],
             if k == "port" && n.Some? && 0 < n.value <= 65535 then v.(port := n.value)
             else if k == "duration" && n.Some? && n.value >= 0
             then v.(duration := Some(if n.value > MAX_STS_SECONDS then MAX_STS_SECONDS else n.value))
             else v)
  }

  /** parseSTS; a duration is in seconds. */
  function ParseSts(value: string): Sts {
    AddSts(Split(value, ','), Sts(0, None))
  }

  function Strip(s: string): string {
    if s == "" then ""
    else if s[0] == '\r' || s[0] == '\n' || s[0] == 0 as char then Strip(s[1..])
    else [s[0]] + Strip(s[1..])
  }

  function Pong(m: Message): Message {
    var token := Strip(if m.params == [] then "" else m.params[|m.params| - 1]);
    var budget := (LINE_LENGTH - 8) / 3;
    Message("PONG", [if |token| > budget then token[..budget] else token])
  }

  function Param(m: Message, i: nat): string {
    if i < |m.params| then m.params[i] else ""
  }

  function CapEnd(): Message {
    Message("CAP", ["END"])
  }

  function Authenticates(chunks: seq<string>): seq<Message> {
    seq(|chunks|, i requires 0 <= i < |chunks| => Message("AUTHENTICATE", [chunks[i]]))
  }

  // ---- Reactions ----------------------------------------------------------------------------------------------------

  function Quiet(st: State): Reply {
    Reply(st, [], Continue)
  }

  function Abort(st: State): Reply {
    Reply(st, [], Failed)
  }

  /** passLine: PASS, once. */
  function PassLine(cfg: Config, st: State): seq<Message> {
    if cfg.pass == "" || st.passSent then [] else [Message("PASS", [cfg.pass])]
  }

  function PassState(cfg: Config, st: State): State {
    st.(passSent := st.passSent || cfg.pass != "")
  }

  /** start: only CAP LS on an insecure link that carries credentials. */
  function Start(env: Env): Reply {
    var cfg := env.cfg;
    var st := Initial(cfg);
    var ls := [Message("CAP", ["LS", "302"])];
    if !env.secure && Credentialed(cfg) then Reply(st, ls, Continue)
    else
      var identity := [Message("NICK", [st.nick]),
                       Message("USER", [if cfg.username == "" then cfg.nick else cfg.username, "0", "*",
                                        if cfg.realname == "" then cfg.nick else cfg.realname])];
      if env.secure then Reply(PassState(cfg, st), ls + PassLine(cfg, st) + identity, Continue)
      else Reply(st, ls + identity, Continue)
  }

  function OnWelcome(env: Env, st: State, m: Message): Reply {
    if !env.secure && Credentialed(env.cfg) then Abort(st)
    else if env.cfg.sasl.Some? && !st.saslDone then Abort(st)
    else
      var done := st.(phase := Done);
      var nick := Param(m, 0);
      if nick == "" || nick == "*" then Reply(done, [], Registered)
      else if |nick| > MAX_NICK_BYTES then Abort(done)
      else Reply(done.(nick := nick), [], Registered)
  }

  function OnNickInUse(env: Env, st: State): Reply {
    if !env.secure && Credentialed(env.cfg) then Abort(st)
    else
      var tries := st.nickTries + 1;
      if tries > 3 then Abort(st.(nickTries := tries))
      else
        var nick := env.fallback(env.cfg.nick, tries);
        Reply(st.(nickTries := tries, nick := nick), [Message("NICK", [nick])], Continue)
  }

  /** 903: trusted only once the mechanism has completed. */
  function OnSaslSuccess(env: Env, st: State): Reply {
    if st.mech.None? then (if env.cfg.sasl.Some? then Abort(st) else Quiet(st))
    else if !Completed(st.mech.value) then Abort(st)
    else Reply(st.(saslDone := true, phase := AwaitWelcome), [CapEnd()], Continue)
  }

  /** capsToRequest: the wanted capabilities on offer, and sasl when configured and offered. */
  function Requests(env: Env, caps: map<string, string>): set<string> {
    (env.wanted * caps.Keys) + (if env.cfg.sasl.Some? && "sasl" in caps then {"sasl"} else {})
  }

  /** The rest of CAP LS once the transport is settled: choose the mechanism, send PASS, request. */
  ghost function Negotiate(env: Env, st: State): Reply {
    var cfg := env.cfg;
    if cfg.sasl.Some? && "sasl" !in st.caps then Abort(st)
    else
      var mech := if cfg.sasl.Some? then NewMech(cfg.sasl.value, st.caps["sasl"]) else st.mech;
      var chosen := st.(mech := mech, mechErr := st.mechErr || (cfg.sasl.Some? && mech.None?));
      var reqs := Listing(Requests(env, st.caps));
      var sent := PassState(cfg, chosen);
      if reqs == [] then Reply(sent.(phase := AwaitWelcome), PassLine(cfg, chosen) + [CapEnd()], Continue)
      else Reply(sent.(phase := CapAck, lastReq := reqs),
                 PassLine(cfg, chosen) + [Message("CAP", ["REQ", Join(reqs, ' ')])], Continue)
  }

  /** The advertised capabilities after one more CAP LS line. */
  function Advertised(st: State, m: Message): State
    requires |m.params| >= 2
  {
    st.(caps := AddCaps(Fields(m.params[|m.params| - 1]), st.caps))
  }

  function AdvertisedSts(st: State): Sts {
    if "sts" in st.caps then ParseSts(st.caps["sts"]) else Sts(0, None)
  }

  /** A duration policy is noted on a secure connection only. */
  function Noted(env: Env, st: State): State {
    if env.secure && AdvertisedSts(st).duration.Some? then st.(stsDuration := AdvertisedSts(st).duration) else st
  }

  /** The end of CAP LS: an insecure connection upgrades or, with credentials, gives up. */
  ghost function Settle(env: Env, st: State): Reply {
    if !env.secure && AdvertisedSts(st).port > 0 then Reply(st, [], Upgrade(AdvertisedSts(st).port))
    else if !env.secure && Credentialed(env.cfg) then Abort(Noted(env, st))
    else Negotiate(env, Noted(env, st))
  }

  ghost function OnCapLs(env: Env, st: State, m: Message): Reply
    requires |m.params| >= 2
  {
    if st.phase != CapLs then Quiet(st)
    else if |m.params| >= 4 && m.params[2] == "*" then Quiet(Advertised(st, m))
    else Settle(env, Advertised(st, m))
  }

  function OnCapAck(env: Env, st: State, m: Message): Reply
    requires |m.params| >= 2
  {
    if st.phase != CapAck then Quiet(st)
    else
      var now := st.(enabled := AddAcks(env.wanted, Fields(m.params[|m.params| - 1]), st.enabled));
      if env.cfg.sasl.Some? && "sasl" in now.enabled && st.mechErr then
        Reply(now, [Message("QUIT", ["SASL mechanism unavailable"])], Failed)
      else if st.mech.Some? && "sasl" in now.enabled && !st.saslDone then
        Reply(now.(phase := AuthChallenge), [Message("AUTHENTICATE", [Name(st.mech.value)])], Continue)
      else Reply(now.(phase := AwaitWelcome), [CapEnd()], Continue)
  }

  function OnCapNak(env: Env, st: State): Reply {
    if st.phase != CapAck then Quiet(st)
    else if env.cfg.sasl.None? then Reply(st.(phase := AwaitWelcome), [CapEnd()], Continue)
    else if !st.nakRetried && |st.lastReq| > 1 then
      Reply(st.(nakRetried := true, lastReq := ["sasl"]), [Message("CAP", ["REQ", "sasl"])], Continue)
    else Abort(st)
  }

  function DecodeChallenge(p: Primitives, text: string): Option<string> {
    if text == "+" || text == "" then Some("") else p.decode(text)
  }

  /** A complete challenge goes to the mechanism; its answer goes out in chunks, an error as an abort. */
  function OnChallenge(p: Primitives, st: State, mech: Mech, challenge: string): Reply {
    var (next, answer) := Answer(p, mech, challenge);
    var told := st.(mech := Some(next), heard := st.heard + [challenge]);
    match answer
    case None => Reply(told, [Message("AUTHENTICATE", ["*"])], Failed)
    case Some(raw) => Reply(told.(said := st.said + [raw]), Authenticates(Chunks(p.encode(raw))), Continue)
  }

  function OnAuthenticate(env: Env, st: State, m: Message): Reply {
    if st.phase != AuthChallenge || st.mech.None? then Quiet(st)
    else
      var (buf, event) := Feed(st.challengeBuf, Param(m, 0));
      var fed := st.(challengeBuf := buf);
      match event
      case More => Quiet(fed)
      case TooLong => Abort(fed)
      case Decode(text) =>
        match DecodeChallenge(env.p, text)
        case None => Abort(fed)
        case Some(challenge) => OnChallenge(env.p, fed, st.mech.value, challenge)
  }

  ghost function OnCap(env: Env, st: State, m: Message): Reply {
    if |m.params| < 2 then Abort(st)
    else
      var sub := Upper(m.params[1]);
      if sub == "LS" then OnCapLs(env, st, m)
      else if sub == "ACK" then OnCapAck(env, st, m)
      else if sub == "NAK" then OnCapNak(env, st)
      else Quiet(st)
  }

  /** handle: the reaction to one server message during registration. */
  ghost function React(env: Env, st: State, m: Message): Reply {
    var c := m.command;
    if c == "PING" then Reply(st, [Pong(m)], Continue)
    else if c == "CAP" then OnCap(env, st, m)
    else if c == "AUTHENTICATE" then OnAuthenticate(env, st, m)
    else if c == "001" then OnWelcome(env, st, m)
    else if c == "433" || c == "436" || c == "437" then OnNickInUse(env, st)
    else if c == "903" then OnSaslSuccess(env, st)
    else if c == "ERROR" || c == "432" || c == "464" || c == "902" || c == "904" || c == "905" || c == "906" || c == "907"
    then Abort(st)
    else Quiet(st)
  }

  /** A run: messages are handled until the verdict is no longer to continue; the result collects everything sent. */
  ghost function Run(env: Env, st: State, msgs: seq<Message>): Reply
    decreases |msgs|
  {
    if msgs == [] then Quiet(st)
    else
      var r := React(env, st, msgs[0]);
      if !r.verdict.Continue? then r
      else
        var rest := Run(env, r.st, msgs[1..]);
        Reply(rest.st, r.out + rest.out, rest.verdict)
  }

  ghost function Registration(env: Env, msgs: seq<Message>): Reply {
    var opening := Start(env);
    var rest := Run(env, opening.st, msgs);
    Reply(rest.st, opening.out + rest.out, rest.verdict)
  }

  // ---- What every reaction keeps -------------------------------------------------------------------------------

  function Login(cfg: SaslConfig): Credentials {
    Credentials(cfg.authzid, cfg.login, cfg.password)
  }

  /** A mechanism exists only on TLS with SASL configured, and its state matches the exchange so far. */
  predicate Sound(env: Env, st: State) {
    && (st.saslDone ==> st.mech.Some? && Completed(st.mech.value))
    && (st.mech.Some? ==> env.secure && env.cfg.sasl.Some?)
    && (st.mech.Some? && st.mech.value.ScramSha256? ==>
          st.mech.value.c == Login(env.cfg.sasl.value)
          && InExchange(env.p, st.mech.value.c, st.mech.value.x, st.heard, st.said))
    && (st.phase == CapLs ==> st.mech.None? && st.heard == [] && st.said == [])
    && (!env.secure && Credentialed(env.cfg) ==> st.phase == CapLs && !st.passSent)
  }

  lemma StartSound(env: Env)
    ensures Sound(env, Start(env).st)
  {
  }

  lemma NegotiateSound(env: Env, st: State)
    requires Sound(env, st) && st.phase == CapLs && (env.secure || !Credentialed(env.cfg))
    requires Negotiate(env, st).verdict.Continue?
    ensures Sound(env, Negotiate(env, st).st)
  {
    if env.cfg.sasl.Some? { StartsInExchange(env.p, Login(env.cfg.sasl.value)); }
  }

  lemma SettleSound(env: Env, st: State)
    requires Sound(env, st) && st.phase == CapLs && Settle(env, st).verdict.Continue?
    ensures Sound(env, Settle(env, st).st)
  {
    assert Sound(env, Noted(env, st));
    NegotiateSound(env, Noted(env, st));
  }

  lemma CapLsSound(env: Env, st: State, m: Message)
    requires Sound(env, st) && |m.params| >= 2 && OnCapLs(env, st, m).verdict.Continue?
    ensures Sound(env, OnCapLs(env, st, m).st)
  {
    if st.phase == CapLs {
      assert Sound(env, Advertised(st, m));
      if !(|m.params| >= 4 && m.params[2] == "*") { SettleSound(env, Advertised(st, m)); }
    }
  }

  lemma CapAckSound(env: Env, st: State, m: Message)
    requires Sound(env, st) && |m.params| >= 2 && OnCapAck(env, st, m).verdict.Continue?
    ensures Sound(env, OnCapAck(env, st, m).st)
  {
  }

  lemma CapNakSound(env: Env, st: State)
    requires Sound(env, st) && OnCapNak(env, st).verdict.Continue?
    ensures Sound(env, OnCapNak(env, st).st)
  {
  }

  lemma CapSound(env: Env, st: State, m: Message)
    requires Sound(env, st) && OnCap(env, st, m).verdict.Continue?
    ensures Sound(env, OnCap(env, st, m).st)
  {
    if |m.params| >= 2 {
      var sub := Upper(m.params[1]);
      if sub == "LS" {
        CapLsSound(env, st, m);
      } else if sub == "ACK" {
        CapAckSound(env, st, m);
      } else if sub == "NAK" {
        CapNakSound(env, st);
      }
    }
  }

  lemma AuthenticateSound(env: Env, st: State, m: Message)
    requires Sound(env, st) && OnAuthenticate(env, st, m).verdict.Continue?
    ensures Sound(env, OnAuthenticate(env, st, m).st)
  {
    if st.phase == AuthChallenge && st.mech.Some? {
      var event := Feed(st.challengeBuf, Param(m, 0)).1;
      if event.Decode? && DecodeChallenge(env.p, event.text).Some? && st.mech.value.ScramSha256? {
        var mech := st.mech.value;
        RespondStaysInExchange(env.p, mech.c, mech.x, st.heard, st.said, DecodeChallenge(env.p, event.text).value);
      }
    }
  }

  lemma WelcomeSound(env: Env, st: State, m: Message)
    requires Sound(env, st)
    ensures OnWelcome(env, st, m).verdict.Registered? ==> Sound(env, OnWelcome(env, st, m).st)
  {
  }

  lemma NickSound(env: Env, st: State)
    requires Sound(env, st)
    ensures Sound(env, OnNickInUse(env, st).st)
  {
  }

  lemma SaslSuccessSound(env: Env, st: State)
    requires Sound(env, st)
    ensures Sound(env, OnSaslSuccess(env, st).st)
  {
  }

  /** Only the welcome registers, and only on the terms of the configuration. */
  predicate Entitled(env: Env, st: State) {
    && (Credentialed(env.cfg) ==> env.secure)
    && (env.cfg.sasl.Some? ==> st.saslDone)
  }

  lemma OnlyWelcomeRegisters(env: Env, st: State, m: Message)
    requires React(env, st, m).verdict.Registered?
    ensures m.command == "001" && Entitled(env, React(env, st, m).st)
  {
  }

  lemma ReactSound(env: Env, st: State, m: Message)
    requires Sound(env, st) && (React(env, st, m).verdict.Continue? || React(env, st, m).verdict.Registered?)
    ensures Sound(env, React(env, st, m).st)
  {
    if React(env, st, m).verdict.Registered? { OnlyWelcomeRegisters(env, st, m); }
    if m.command == "CAP" {
      CapSound(env, st, m);
    } else if m.command == "AUTHENTICATE" {
      AuthenticateSound(env, st, m);
    } else if m.command == "001" {
      WelcomeSound(env, st, m);
    } else if m.command == "433" || m.command == "436" || m.command == "437" {
      NickSound(env, st);
    } else if m.command == "903" {
      SaslSuccessSound(env, st);
    }
  }

  lemma {:induction false} RunSound(env: Env, st: State, msgs: seq<Message>)
    requires Sound(env, st) && Run(env, st, msgs).verdict.Registered?
    ensures Sound(env, Run(env, st, msgs).st) && Entitled(env, Run(env, st, msgs).st)
    decreases |msgs|
  {
    if msgs != [] {
      ReactSound(env, st, msgs[0]);
      var r := React(env, st, msgs[0]);
      if r.verdict.Continue? {
        RunSound(env, r.st, msgs[1..]);
      } else {
        OnlyWelcomeRegisters(env, st, msgs[0]);
      }
    }
  }

  /** Whatever the server sends, registration succeeds with credentials configured only over TLS, with SASL configured
      only after its mechanism completed, and with SCRAM only after the server proved the password over the messages
      actually exchanged. */
  lemma RegisteredIsAuthenticated(env: Env, msgs: seq<Message>)
    requires Registration(env, msgs).verdict.Registered?
    ensures Credentialed(env.cfg) ==> env.secure
    ensures env.cfg.sasl.Some? ==> Registration(env, msgs).st.mech.Some?
                                   && Completed(Registration(env, msgs).st.mech.value)
    ensures env.cfg.sasl.Some? && Registration(env, msgs).st.mech.value.ScramSha256? ==>
              Authenticated(env.p, Login(env.cfg.sasl.value), Registration(env, msgs).st.heard,
                            Registration(env, msgs).st.said)
  {
    StartSound(env);
    RunSound(env, Start(env).st, msgs);
  }

  // ---- What is sent ---------------------------------------------------------------------------------------------

  /** Discloses nothing: the opening CAP LS, or an answer to PING. */
  predicate Harmless(m: Message) {
    m == Message("CAP", ["LS", "302"]) || m.command == "PONG"
  }

  predicate AllHarmless(out: seq<Message>) {
    forall i :: 0 <= i < |out| ==> Harmless(out[i])
  }

  lemma InsecureReaction(env: Env, st: State, m: Message)
    requires Sound(env, st) && !env.secure && Credentialed(env.cfg)
    ensures AllHarmless(React(env, st, m).out) && !React(env, st, m).verdict.Registered?
  {
  }

  lemma {:induction false} InsecureRun(env: Env, st: State, msgs: seq<Message>)
    requires Sound(env, st) && !env.secure && Credentialed(env.cfg)
    ensures AllHarmless(Run(env, st, msgs).out) && !Run(env, st, msgs).verdict.Registered?
    decreases |msgs|
  {
    if msgs != [] {
      InsecureReaction(env, st, msgs[0]);
      var r := React(env, st, msgs[0]);
      if r.verdict.Continue? {
        ReactSound(env, st, msgs[0]);
        InsecureRun(env, r.st, msgs[1..]);
      }
    }
  }

  /** An insecure connection with a password or SASL configured sends nothing but CAP LS and PONG, whatever the server
      sends, and never registers. */
  lemma InsecureRunDisclosesNothing(env: Env, msgs: seq<Message>)
    requires !env.secure && Credentialed(env.cfg)
    ensures AllHarmless(Registration(env, msgs).out) && !Registration(env, msgs).verdict.Registered?
  {
    StartSound(env);
    InsecureRun(env, Start(env).st, msgs);
  }

  function Passes(out: seq<Message>): nat {
    if out == [] then 0 else (if out[0].command == "PASS" then 1 else 0) + Passes(out[1..])
  }

  lemma {:induction false} PassesAppend(a: seq<Message>, b: seq<Message>)
    ensures Passes(a + b) == Passes(a) + Passes(b)
  {
    if a == [] {
      assert a + b == b;
    } else {
      assert (a + b)[1..] == a[1..] + b;
      PassesAppend(a[1..], b);
    }
  }

  lemma {:induction false} NoPasses(out: seq<Message>)
    requires forall i :: 0 <= i < |out| ==> out[i].command != "PASS"
    ensures Passes(out) == 0
  {
    if out != [] { NoPasses(out[1..]); }
  }

  /** PASS goes out at most once, and the flag says whether it has. */
  predicate PassOnce(before: State, after: State, out: seq<Message>) {
    Passes(out) == (if after.passSent then 1 else 0) - (if before.passSent then 1 else 0)
  }

  lemma NegotiatePass(env: Env, st: State)
    ensures PassOnce(st, Negotiate(env, st).st, Negotiate(env, st).out)
  {
    var out := Negotiate(env, st).out;
    if out != [] {
      var last := out[|out| - 1];
      assert out == PassLine(env.cfg, st) + [last];
      PassesAppend(PassLine(env.cfg, st), [last]);
    }
  }

  lemma SettlePass(env: Env, st: State)
    ensures PassOnce(st, Settle(env, st).st, Settle(env, st).out)
  {
    NegotiatePass(env, Noted(env, st));
  }

  lemma CapLsPass(env: Env, st: State, m: Message)
    requires |m.params| >= 2
    ensures PassOnce(st, OnCapLs(env, st, m).st, OnCapLs(env, st, m).out)
  {
    SettlePass(env, Advertised(st, m));
  }

  lemma CapPass(env: Env, st: State, m: Message)
    ensures PassOnce(st, OnCap(env, st, m).st, OnCap(env, st, m).out)
  {
    if |m.params| >= 2 && Upper(m.params[1]) == "LS" {
      CapLsPass(env, st, m);
    } else {
      NoPasses(OnCap(env, st, m).out);
    }
  }

  lemma AuthenticatePass(env: Env, st: State, m: Message)
    ensures PassOnce(st, OnAuthenticate(env, st, m).st, OnAuthenticate(env, st, m).out)
  {
    NoPasses(OnAuthenticate(env, st, m).out);
  }

  lemma ReactPass(env: Env, st: State, m: Message)
    ensures PassOnce(st, React(env, st, m).st, React(env, st, m).out)
  {
    if m.command == "CAP" {
      CapPass(env, st, m);
    } else if m.command == "AUTHENTICATE" {
      AuthenticatePass(env, st, m);
    } else {
      assert |React(env, st, m).out| <= 1;
      NoPasses(React(env, st, m).out);
    }
  }

  lemma {:induction false} RunPass(env: Env, st: State, msgs: seq<Message>)
    ensures PassOnce(st, Run(env, st, msgs).st, Run(env, st, msgs).out)
    decreases |msgs|
  {
    if msgs != [] {
      ReactPass(env, st, msgs[0]);
      var r := React(env, st, msgs[0]);
      if r.verdict.Continue? {
        RunPass(env, r.st, msgs[1..]);
        PassesAppend(r.out, Run(env, r.st, msgs[1..]).out);
      }
    }
  }

  lemma StartPass(env: Env)
    ensures Passes(Start(env).out) == if Start(env).st.passSent then 1 else 0
  {
    var out := Start(env).out;
    var ls := [Message("CAP", ["LS", "302"])];
    if env.secure || !Credentialed(env.cfg) {
      var pass := if env.secure then PassLine(env.cfg, Initial(env.cfg)) else [];
      var identity := out[|out| - 2..];
      assert out == ls + pass + identity;
      NoPasses(identity);
      PassesAppend(ls + pass, identity);
      PassesAppend(ls, pass);
    }
  }

  /** The server password goes out at most once in a whole registration. */
  lemma PassSentAtMostOnce(env: Env, msgs: seq<Message>)
    ensures Passes(Registration(env, msgs).out) <= 1
  {
    var opening := Start(env);
    StartPass(env);
    RunPass(env, opening.st, msgs);
    PassesAppend(opening.out, Run(env, opening.st, msgs).out);
  }
}
