/** SCRAM-SHA-256 client (RFC 5802, RFC 7677).  Bytes are `char`s.  The cryptographic primitives are parameters: only
    the order of the checks and what is fed to the primitives matter here. */
module Scram {
  import opened Wrappers
  import opened Text

  datatype Primitives = Primitives(
    hmac: (string, string) -> string,
    hash: string -> string,
    pbkdf2: (string, string, int) -> string,
    xor: (string, string) -> string,
    encode: string -> string,
    decode: string -> Option<string>,
    nonce: string)

  const MIN_ITERATIONS := 4096
  const MAX_ITERATIONS := 1_000_000

  // ---- Parsing -----------------------------------------------------------------------------------------------

  type Attrs = map<string, string>

  function AddAttrs(parts: seq<string>, acc: Attrs): Option<Attrs>
    decreases |parts|
  {
    if parts == [] then Some(acc)
    else
      match Cut(parts[0], '=')
      case None => None
      case Some((k, v)) => if |k| != 1 then None else AddAttrs(parts[1..], acc[k := v])
  }

  /** parseScramAttrs: "k=v,k=v", every key one byte, the last of equal keys winning. */
  function ParseAttrs(msg: string): Option<Attrs> {
    AddAttrs(Split(msg, ','), map[])
  }

  method ParseAttrsLoop(msg: string) returns (r: Option<Attrs>)
    ensures r == ParseAttrs(msg)
  {
    var parts := Split(msg, ',');
    var out: Attrs := map[];
    for i := 0 to |parts|
      invariant AddAttrs(parts[i..], out) == ParseAttrs(msg)
    {
      var cut := Cut(parts[i], '=');
      assert parts[i..][1..] == parts[i + 1..];
      if cut.None? || |cut.value.0| != 1 {
        return None;
      }
      out := out[cut.value.0 := cut.value.1];
    }
    return Some(out);
  }

  function Attr(attrs: Attrs, key: string): string {
    if key in attrs then attrs[key] else ""
  }

  /** ',' and '=' are reserved in a name (RFC 5802, section 5.1). */
  function Escape(s: string): string {
    if s == "" then ""
    else (if s[0] == '=' then "=3D" else if s[0] == ',' then "=2C" else [s[0]]) + Escape(s[1..])
  }

  /** How a server reads a saslname (section 5.1 of RFC 5802); None when it is malformed. */
  function Unescape(s: string): Option<string>
    decreases |s|
  {
    if s == "" then Some("")
    else if s[0] == ',' then None
    else if s[0] != '=' then
      var rest := Unescape(s[1..]);
      if rest.None? then None else Some([s[0]] + rest.value)
    else if "=2C" <= s || "=3D" <= s then
      var rest := Unescape(s[3..]);
      if rest.None? then None else Some([if "=2C" <= s then ',' else '='] + rest.value)
    else None
  }

  /** Every name arrives as it was: escaping is undone exactly, so two names never look alike on the wire. */
  lemma {:induction false} UnescapeEscape(s: string)
    ensures Unescape(Escape(s)) == Some(s)
  {
    if s != "" {
      UnescapeEscape(s[1..]);
      var e := Escape(s);
      if s[0] == '=' {
        assert "=3D" <= e && e[3..] == Escape(s[1..]) && e[1] == '3';
      } else if s[0] == ',' {
        assert "=2C" <= e && e[3..] == Escape(s[1..]);
      } else {
        assert e[1..] == Escape(s[1..]);
      }
      assert s == [s[0]] + s[1..];
    }
  }

  lemma {:induction false} EscapeIsReservedFree(s: string)
    ensures ',' !in Escape(s)
  {
    if s != "" { EscapeIsReservedFree(s[1..]); }
  }

  // ---- What RFC 5802 says is exchanged -------------------------------------------------------------------------

  datatype Credentials = Credentials(authzid: string, authcid: string, password: string)

  function Gs2Header(c: Credentials): string {
    "n," + (if c.authzid == "" then "" else "a=" + Escape(c.authzid)) + ","
  }

  function ClientFirstBare(p: Primitives, c: Credentials): string {
    "n=" + Escape(c.authcid) + ",r=" + p.nonce
  }

  /** The parameters of an acceptable server-first-message. */
  datatype Terms = Terms(nonce: string, salt: string, iterations: int)

  function ReadServerFirst(p: Primitives, serverFirst: string): (r: Option<Terms>)
    ensures r.Some? ==> p.nonce <= r.value.nonce && MIN_ITERATIONS <= r.value.iterations <= MAX_ITERATIONS
  {
    match ParseAttrs(serverFirst)
    case None => None
    case Some(a) =>
      if "m" in a || Attr(a, "r") == "" || Attr(a, "s") == "" || Attr(a, "i") == "" then None
      else if !(p.nonce <= Attr(a, "r")) then None
      else
        var salt := p.decode(Attr(a, "s"));
        var n := Atoi(Attr(a, "i"));
        if salt.None? || n.None? || n.value < MIN_ITERATIONS || n.value > MAX_ITERATIONS then None
        else Some(Terms(Attr(a, "r"), salt.value, n.value))
  }

  function WithoutProof(p: Primitives, c: Credentials, terms: Terms): string {
    "c=" + p.encode(Gs2Header(c)) + ",r=" + terms.nonce
  }

  function AuthMessage(p: Primitives, c: Credentials, serverFirst: string, terms: Terms): string {
    ClientFirstBare(p, c) + "," + serverFirst + "," + WithoutProof(p, c, terms)
  }

  function SaltedPassword(p: Primitives, c: Credentials, terms: Terms): string {
    p.pbkdf2(c.password, terms.salt, terms.iterations)
  }

  function ClientProof(p: Primitives, c: Credentials, serverFirst: string, terms: Terms): string {
    var clientKey := p.hmac(SaltedPassword(p, c, terms), "Client Key");
    p.xor(clientKey, p.hmac(p.hash(clientKey), AuthMessage(p, c, serverFirst, terms)))
  }

  function ServerSignature(p: Primitives, c: Credentials, serverFirst: string, terms: Terms): string {
    p.hmac(p.hmac(SaltedPassword(p, c, terms), "Server Key"), AuthMessage(p, c, serverFirst, terms))
  }

  /** A server-final-message that carries this signature and reports no error. */
  predicate Proves(p: Primitives, serverFinal: string, signature: string) {
    var a := ParseAttrs(serverFinal);
    a.Some? && Attr(a.value, "e") == "" && p.decode(Attr(a.value, "v")) == Some(signature)
  }

  /** The whole exchange: what was heard and said, message by message, and the server proved the password. */
  predicate Authenticated(p: Primitives, c: Credentials, heard: seq<string>, said: seq<string>) {
    && |heard| == 3 && |said| == 3
    && said[0] == Gs2Header(c) + ClientFirstBare(p, c)
    && ReadServerFirst(p, heard[1]).Some?
    && (var terms := ReadServerFirst(p, heard[1]).value;
        && said[1] == WithoutProof(p, c, terms) + ",p=" + p.encode(ClientProof(p, c, heard[1], terms))
        && Proves(p, heard[2], ServerSignature(p, c, heard[1], terms)))
    && said[2] == ""
  }

  // ---- The client ---------------------------------------------------------------------------------------------

  /** The mutable part of the client. */
  datatype Client = Client(bare: string, nonce: string, serverSig: string, step: nat, verified: bool)

  const NEW := Client("", "", "", 0, false)

  /** respond: the next state, and the response or None for an error that ends the exchange. */
  function Respond(p: Primitives, c: Credentials, x: Client, challenge: string): (Client, Option<string>) {
    if x.step == 0 then
      (x.(step := 1, nonce := p.nonce, bare := ClientFirstBare(p, c)),
       Some(Gs2Header(c) + ClientFirstBare(p, c)))
    else if x.step == 1 then
      match ReadServerFirst(p, challenge)
      case None => (x.(step := 2), None)
      case Some(terms) =>
        (x.(step := 2, serverSig := ServerSignature(p, c, challenge, terms)),
         Some(WithoutProof(p, c, terms) + ",p=" + p.encode(ClientProof(p, c, challenge, terms))))
    else if x.step == 2 && Proves(p, challenge, x.serverSig) then
      (x.(step := 3, verified := true), Some(""))
    else
      (x.(step := if x.step == 2 then 3 else x.step), None)
  }

  /** A client that has answered every challenge so far, and the transcript. */
  predicate InExchange(p: Primitives, c: Credentials, x: Client, heard: seq<string>, said: seq<string>) {
    && |heard| == |said| == x.step <= 3
    && (x.step == 0 ==> x == NEW)
    && (x.step >= 1 ==> x.nonce == p.nonce && x.bare == ClientFirstBare(p, c)
                        && said[0] == Gs2Header(c) + ClientFirstBare(p, c))
    && (x.step >= 2 ==> ReadServerFirst(p, heard[1]).Some? &&
                        var terms := ReadServerFirst(p, heard[1]).value;
                        && said[1] == WithoutProof(p, c, terms) + ",p=" + p.encode(ClientProof(p, c, heard[1], terms))
                        && x.serverSig == ServerSignature(p, c, heard[1], terms))
    && (x.step == 3 ==> Authenticated(p, c, heard, said))
    && (x.verified <==> x.step == 3)
  }

  lemma StartsInExchange(p: Primitives, c: Credentials)
    ensures InExchange(p, c, NEW, [], [])
  {
  }

  /** Answering keeps the client in the exchange; so it counts as verified only with an authenticated transcript. */
  lemma RespondStaysInExchange(p: Primitives, c: Credentials, x: Client, heard: seq<string>, said: seq<string>,
                               challenge: string)
    requires InExchange(p, c, x, heard, said) && Respond(p, c, x, challenge).1.Some?
    ensures InExchange(p, c, Respond(p, c, x, challenge).0, heard + [challenge],
                       said + [Respond(p, c, x, challenge).1.value])
  {
    assert (heard + [challenge])[|heard|] == challenge;
  }

  /** An error never leaves a client that had not verified the server looking as if it had. */
  lemma ErrorNeverVerifies(p: Primitives, c: Credentials, x: Client, challenge: string)
    requires Respond(p, c, x, challenge).1.None?
    ensures Respond(p, c, x, challenge).0.verified == x.verified
  {
  }

  /** Completeness: a server that knows the password and follows RFC 5802 is accepted. */
  lemma HonestServerAccepted(p: Primitives, c: Credentials, serverFirst: string, serverFinal: string)
    requires ReadServerFirst(p, serverFirst).Some?
    requires Proves(p, serverFinal, ServerSignature(p, c, serverFirst, ReadServerFirst(p, serverFirst).value))
    ensures var x1 := Respond(p, c, NEW, "").0;
            var x2 := Respond(p, c, x1, serverFirst).0;
            Respond(p, c, x2, serverFinal).0.verified
  {
  }

  class ScramClient {
    const p: Primitives
    const c: Credentials
    var clientFirstBare: string
    var clientNonce: string
    var serverSig: string
    var step: nat
    var verified: bool

    ghost function View(): Client
      reads this
    {
      Client(clientFirstBare, clientNonce, serverSig, step, verified)
    }

    /** Past the first step the fields hold what that step stored. */
    ghost predicate Valid()
      reads this
    {
      step >= 1 ==> clientNonce == p.nonce && clientFirstBare == ClientFirstBare(p, c)
    }

    constructor (p: Primitives, c: Credentials)
      ensures Valid() && this.p == p && this.c == c && View() == NEW
    {
      this.p, this.c := p, c;
      clientFirstBare, clientNonce, serverSig, step, verified := "", "", "", 0, false;
    }

    method ClientFirst() returns (r: string)
      modifies this`clientNonce, this`clientFirstBare
      ensures clientNonce == p.nonce && clientFirstBare == ClientFirstBare(p, c)
      ensures r == Gs2Header(c) + ClientFirstBare(p, c)
    {
      clientNonce := p.nonce;
      clientFirstBare := "n=" + Escape(c.authcid) + ",r=" + clientNonce;
      r := Gs2Header(c) + clientFirstBare;
    }

    method ClientFinal(serverFirst: string) returns (r: Option<string>)
      requires clientNonce == p.nonce && clientFirstBare == ClientFirstBare(p, c)
      modifies this`serverSig
      ensures r.Some? <==> ReadServerFirst(p, serverFirst).Some?
      ensures r.None? ==> serverSig == old(serverSig)
      ensures r.Some? ==> var terms := ReadServerFirst(p, serverFirst).value;
                          && r.value == WithoutProof(p, c, terms) + ",p="
                                        + p.encode(ClientProof(p, c, serverFirst, terms))
                          && serverSig == ServerSignature(p, c, serverFirst, terms)
    {
      var attrs := ParseAttrsLoop(serverFirst);
      if attrs.None? || "m" in attrs.value {
        return None;
      }
      var nonce, salt64, count := Attr(attrs.value, "r"), Attr(attrs.value, "s"), Attr(attrs.value, "i");
      if nonce == "" || salt64 == "" || count == "" || !(clientNonce <= nonce) {
        return None;
      }
      var salt := p.decode(salt64);
      var iterations := Atoi(count);
      if salt.None? || iterations.None? || iterations.value <= 0 {
        return None;
      }
      if iterations.value < MIN_ITERATIONS || iterations.value > MAX_ITERATIONS {
        return None;
      }
      var salted := p.pbkdf2(c.password, salt.value, iterations.value);
      var clientKey := p.hmac(salted, "Client Key");
      var storedKey := p.hash(clientKey);
      var serverKey := p.hmac(salted, "Server Key");
      var withoutProof := "c=" + p.encode(Gs2Header(c)) + ",r=" + nonce;
      var authMessage := clientFirstBare + "," + serverFirst + "," + withoutProof;
      var proof := p.xor(clientKey, p.hmac(storedKey, authMessage));
      serverSig := p.hmac(serverKey, authMessage);
      return Some(withoutProof + ",p=" + p.encode(proof));
    }

    method Verify(serverFinal: string) returns (r: Option<string>)
      modifies this`verified
      ensures r == if Proves(p, serverFinal, serverSig) then Some("") else None
      ensures verified <==> old(verified) || r.Some?
    {
      var attrs := ParseAttrsLoop(serverFinal);
      if attrs.None? || Attr(attrs.value, "e") != "" {
        return None;
      }
      var got := p.decode(Attr(attrs.value, "v"));
      if got.None? || got.value != serverSig {
        return None;
      }
      verified := true;
      return Some("");
    }

    method Challenge(challenge: string) returns (r: Option<string>)
      requires Valid()
      modifies this
      ensures Valid() && (View(), r) == Respond(p, c, old(View()), challenge)
    {
      r := None;
      if step == 0 {
        step := 1;
        var first := ClientFirst();
        r := Some(first);
      } else if step == 1 {
        step := 2;
        r := ClientFinal(challenge);
      } else if step == 2 {
        step := 3;
        r := Verify(challenge);
      }
    }
  }
}
