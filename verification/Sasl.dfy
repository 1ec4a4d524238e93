/** SASL mechanisms and the splitting of AUTHENTICATE payloads (IRCv3 sasl-3.1, RFC 4616, RFC 4422). */
module Sasl {
  import opened Wrappers
  import opened Text
  import opened Scram

  // ---- Mechanisms -------------------------------------------------------------------------------------------------

  datatype SaslConfig = SaslConfig(login: string, password: string, authzid: string, mechanism: string)

  datatype Mech =
    | Plain(authzid: string, authcid: string, passwd: string, sent: bool)
    | External(authzid: string, sent: bool)
    | ScramSha256(c: Credentials, x: Client)

  function Name(m: Mech): string {
    match m
    case Plain(_, _, _, _) => "PLAIN"
    case External(_, _) => "EXTERNAL"
    case ScramSha256(_, _) => "SCRAM-SHA-256"
  }

  /** May a server's report of success be trusted? */
  predicate Completed(m: Mech) {
    match m
    case Plain(_, _, _, sent) => sent
    case External(_, sent) => sent
    case ScramSha256(_, x) => x.verified
  }

  function SaslPlain(authzid: string, authcid: string, passwd: string): string {
    authzid + [0 as char] + authcid + [0 as char] + passwd
  }

  function Answer(p: Primitives, m: Mech, challenge: string): (Mech, Option<string>) {
    match m
    case Plain(z, c, w, sent) => if sent then (m, None) else (Plain(z, c, w, true), Some(SaslPlain(z, c, w)))
    case External(z, sent) => if sent then (m, None) else (External(z, true), Some(z))
    case ScramSha256(c, x) =>
      var (y, r) := Respond(p, c, x, challenge);
      (ScramSha256(c, y), r)
  }

  function UpperChar(c: char): char {
    if 'a' <= c <= 'z' then (c as int - 32) as char else c
  }

  function Upper(s: string): string {
    seq(|s|, i requires 0 <= i < |s| => UpperChar(s[i]))
  }

  predicate Listed(list: seq<string>, mech: string) {
    exists m :: m in list && Upper(m) == Upper(mech)
  }

  /** mechListed: does the comma-separated list name the mechanism, in any letter case? */
  predicate MechListed(list: string, mech: string) {
    Listed(Split(list, ','), mech)
  }

  /** The mechanism to use when the configuration names none. */
  function Automatic(cfg: SaslConfig, offered: string): string {
    if cfg.password == "" then "EXTERNAL"
    else if MechListed(offered, "SCRAM-SHA-256") then "SCRAM-SHA-256"
    else "PLAIN"
  }

  /** newMech: None when the mechanism is not offered or not supported. */
  function NewMech(cfg: SaslConfig, offered: string): (r: Option<Mech>)
    ensures r.Some? ==> !Completed(r.value)
  {
    var mech := if cfg.mechanism == "" then Automatic(cfg, offered) else Upper(cfg.mechanism);
    if offered != "" && !MechListed(offered, mech) then None
    else if mech == "PLAIN" then
      Some(Plain(if cfg.authzid == "" then cfg.login else cfg.authzid, cfg.login, cfg.password, false))
    else if mech == "EXTERNAL" then Some(External(cfg.authzid, false))
    else if mech == "SCRAM-SHA-256" then Some(ScramSha256(Credentials(cfg.authzid, cfg.login, cfg.password), NEW))
    else None
  }

  // ---- Splitting and reassembly -------------------------------------------------------------------------------------

  const CHUNK := 400
  const MAX_CHALLENGE := 8192

  function Pieces(b64: string): seq<string> {
    if |b64| > CHUNK then [b64[..CHUNK]] + Pieces(b64[CHUNK..])
    else if |b64| == CHUNK then [b64, "+"]
    else [b64]
  }

  function Chunks(b64: string): seq<string> {
    if b64 == "" then ["+"] else Pieces(b64)
  }

  method ChunkAuthenticate(b64: string) returns (chunks: seq<string>)
    ensures chunks == Chunks(b64)
  {
    if b64 == "" {
      return ["+"];
    }
    chunks := [];
    var rest := b64;
    while |rest| > CHUNK
      invariant rest != "" && chunks + Pieces(rest) == Pieces(b64)
      decreases |rest|
    {
      chunks := chunks + [rest[..CHUNK]];
      rest := rest[CHUNK..];
    }
    chunks := chunks + [rest];
    if |rest| == CHUNK {
      chunks := chunks + ["+"];
    }
  }

  /** What one AUTHENTICATE line from the server leads to. */
  datatype Event = More | Decode(text: string) | TooLong

  /** The challenge buffer of handleAuthenticate after one line, and what happens. */
  function Feed(buf: string, arg: string): (string, Event) {
    var longer := if arg != "+" then buf + arg else buf;
    if arg != "+" && |longer| > MAX_CHALLENGE then ("", TooLong)
    else if |arg| == CHUNK then (longer, More)
    else ("", Decode(if longer == "" then "+" else longer))
  }

  function FeedAll(buf: string, args: seq<string>): (string, seq<Event>)
    decreases |args|
  {
    if args == [] then (buf, [])
    else
      var (next, event) := Feed(buf, args[0]);
      var (last, events) := FeedAll(next, args[1..]);
      (last, [event] + events)
  }

  /** All lines but the last ask for more; the last yields this text; the buffer is empty again. */
  predicate OneDecode(result: (string, seq<Event>), text: string) {
    && result.0 == "" && |result.1| >= 1 && result.1[|result.1| - 1] == Decode(text)
    && forall i :: 0 <= i < |result.1| - 1 ==> result.1[i] == More
  }

  /** The one split whose last chunk looks like the end mark. */
  predicate EndsInLonePlus(b64: string) {
    |b64| > 1 && |b64| % CHUNK == 1 && b64[|b64| - 1] == '+'
  }

  lemma MoreThen(last: string, events: seq<Event>, text: string)
    requires OneDecode((last, events), text)
    ensures OneDecode((last, [More] + events), text)
  {
  }

  lemma FeedAllStep(buf: string, arg: string, rest: seq<string>)
    ensures FeedAll(buf, [arg] + rest)
            == (FeedAll(Feed(buf, arg).0, rest).0, [Feed(buf, arg).1] + FeedAll(Feed(buf, arg).0, rest).1)
  {
    assert ([arg] + rest)[1..] == rest;
  }

  /** A full chunk first: more follows. */
  lemma FullChunk(buf: string, chunk: string, rest: seq<string>, text: string)
    requires |chunk| == CHUNK && |buf| + |chunk| <= MAX_CHALLENGE && OneDecode(FeedAll(buf + chunk, rest), text)
    ensures OneDecode(FeedAll(buf, [chunk] + rest), text)
  {
    FeedAllStep(buf, chunk, rest);
    var r := FeedAll(buf + chunk, rest);
    MoreThen(r.0, r.1, text);
  }

  lemma LastLine(buf: string, line: string)
    requires |line| < CHUNK && (line == "+" || |buf| + |line| <= MAX_CHALLENGE)
    ensures OneDecode(FeedAll(buf, [line]),
                      if line == "+" then (if buf == "" then "+" else buf)
                      else if buf + line == "" then "+" else buf + line)
  {
    FeedAllStep(buf, line, []);
    assert [line] + [] == [line];
  }

  /** What is decoded in the end: all of it, or all but the lone '+' of the last chunk. */
  function Heard(buf: string, b64: string): string
    requires b64 != ""
  {
    if |b64| % CHUNK == 1 && b64[|b64| - 1] == '+' && buf + b64 != "+" then buf + b64[..|b64| - 1] else buf + b64
  }

  lemma HeardSplit(buf: string, b64: string)
    requires |b64| > CHUNK
    ensures Heard(buf + b64[..CHUNK], b64[CHUNK..]) == Heard(buf, b64)
  {
    var chunk, rest := b64[..CHUNK], b64[CHUNK..];
    assert buf + chunk + rest == buf + b64;
    assert |rest| % CHUNK == |b64| % CHUNK && rest[|rest| - 1] == b64[|b64| - 1];
    assert buf + chunk + rest[..|rest| - 1] == buf + b64[..|b64| - 1];
  }

  lemma {:induction false} PiecesReassemble(buf: string, b64: string)
    requires b64 != "" && |buf| + |b64| <= MAX_CHALLENGE
    ensures OneDecode(FeedAll(buf, Pieces(b64)), Heard(buf, b64))
    decreases |b64|
  {
    if |b64| > CHUNK {
      var chunk, rest := b64[..CHUNK], b64[CHUNK..];
      HeardSplit(buf, b64);
      PiecesReassemble(buf + chunk, rest);
      FullChunk(buf, chunk, Pieces(rest), Heard(buf + chunk, rest));
    } else if |b64| == CHUNK {
      LastLine(buf + b64, "+");
      FullChunk(buf, b64, ["+"], buf + b64);
    } else {
      LastLine(buf, b64);
      if b64 == "+" { assert buf + b64[..0] == buf; }
    }
  }

  /** Sending a base64 string of at most MAX_CHALLENGE bytes in chunks makes the reassembler decode exactly once, at the
      last line, and exactly that string, unless its last chunk is a lone '+'. */
  lemma ChunksReassembleIff(b64: string)
    requires |b64| <= MAX_CHALLENGE
    ensures OneDecode(FeedAll("", Chunks(b64)), if b64 == "" then "+" else b64) <==> !EndsInLonePlus(b64)
  {
    if b64 == "" {
      assert Chunks(b64)[1..] == [];
    } else {
      PiecesReassemble("", b64);
      assert "" + b64 == b64;
      if EndsInLonePlus(b64) {
        assert |b64[..|b64| - 1]| < |b64|;
      }
    }
  }

  /** Every length that base64 produces is safe. */
  lemma Base64Reassembles(b64: string)
    requires |b64| <= MAX_CHALLENGE && |b64| % 4 == 0
    ensures OneDecode(FeedAll("", Chunks(b64)), if b64 == "" then "+" else b64)
  {
    ChunksReassembleIff(b64);
    var q := |b64| / CHUNK;
    assert |b64| == 4 * (100 * q) + |b64| % CHUNK;
  }
}
