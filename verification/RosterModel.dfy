/** Channel rosters as plain values, with every size recomputed from scratch.  This is the reference that
    the incrementally accounted `Roster` is proved against, and the place where the budget laws are stated. */
module RosterModel {
  import opened Wrappers
  import opened Sums
  import opened Casemap
  import opened Isupport

  const MAX_FIELD := 512
  const MEMBER_OVERHEAD := 96
  const MAX_MODE_LETTERS := 64

  datatype Member = Member(nick: string, prefix: string, away: bool, account: string, bot: bool,
                           user: string, host: string)

  type Members = map<string, Member>

  /** `pending` is the in-flight NAMES snapshot; None before the first 353. */
  datatype Channel = Channel(name: string, topic: string, members: Members, pending: Option<Members>)

  type State = map<string, Channel>

  datatype Limits = Limits(channels: nat, channelMembers: nat, members: nat, bytes: nat)

  /** What a message is interpreted under: the connection's casemapping (fixed) and current ISUPPORT modes. */
  datatype Env = Env(cm: CaseMapping, modes: Modes, limits: Limits)

  // ---- Sizes -------------------------------------------------------------------------------------------

  function MemberBytes(key: string, m: Member): int {
    |key| + |m.nick| + |m.prefix| + |m.account| + |m.user| + |m.host| + MEMBER_OVERHEAD
  }

  function Pending(c: Channel): Members {
    if c.pending.Some? then c.pending.value else map[]
  }

  ghost function Weight(key: string, c: Channel): int {
    |c.topic| + Sum(c.members, MemberBytes) + Sum(Pending(c), MemberBytes)
  }

  ghost function Held(key: string, c: Channel): int {
    |c.members| + |Pending(c)|
  }

  ghost function TotalBytes(s: State): int {
    Sum(s, Weight)
  }

  ghost function TotalMembers(s: State): int {
    Sum(s, Held)
  }

  ghost predicate Over(env: Env, s: State) {
    TotalBytes(s) >= env.limits.bytes
  }

  // ---- Field clamping ---------------------------------------------------------------------------------------

  function Byte(s: string, i: nat): int
    requires i < |s|
  {
    s[i] as int
  }

  predicate Continuation(b: int) {
    0x80 <= b <= 0xBF
  }

  /** One well-formed UTF-8 encoding. */
  predicate OneRune(s: string) {
    if |s| == 1 then Byte(s, 0) < 0x80
    else if |s| == 2 then 0xC2 <= Byte(s, 0) <= 0xDF && Continuation(Byte(s, 1))
    else if |s| == 3 then
      && 0xE0 <= Byte(s, 0) <= 0xEF && Continuation(Byte(s, 1)) && Continuation(Byte(s, 2))
      && (Byte(s, 0) == 0xE0 ==> 0xA0 <= Byte(s, 1)) && (Byte(s, 0) == 0xED ==> Byte(s, 1) <= 0x9F)
    else if |s| == 4 then
      && 0xF0 <= Byte(s, 0) <= 0xF4
      && Continuation(Byte(s, 1)) && Continuation(Byte(s, 2)) && Continuation(Byte(s, 3))
      && (Byte(s, 0) == 0xF0 ==> 0x90 <= Byte(s, 1)) && (Byte(s, 0) == 0xF4 ==> Byte(s, 1) <= 0x8F)
    else false
  }

  predicate EndsInRune(s: string) {
    || (|s| >= 1 && OneRune(s[|s| - 1..]))
    || (|s| >= 2 && OneRune(s[|s| - 2..]))
    || (|s| >= 3 && OneRune(s[|s| - 3..]))
    || (|s| >= 4 && OneRune(s[|s| - 4..]))
  }

  function TrimPartial(s: string): (r: string)
    ensures r <= s && (r == "" || EndsInRune(r))
  {
    if s == "" || EndsInRune(s) then s else TrimPartial(s[..|s| - 1])
  }

  /** clampRoster: at most MAX_FIELD bytes, cut on a rune boundary; a short field is kept whole. */
  function Clamp(s: string): (r: string)
    ensures r <= s && |r| <= MAX_FIELD
    ensures |s| <= MAX_FIELD ==> r == s
    ensures |s| > MAX_FIELD ==> r == "" || EndsInRune(r)
  {
    if |s| > MAX_FIELD then TrimPartial(s[..MAX_FIELD]) else s
  }

  function Key(env: Env, name: string): string {
    Fold(env.cm, Clamp(name))
  }

  // ---- Nick-level operations ----------------------------------------------------------------------------------

  datatype Update =
    | SetHost(user: string, host: string)
    | SetAway(away: bool)
    | SetAccount(account: string)
    | SetWhox(away: bool, account: string, bot: bool)

  function Revised(u: Update, m: Member): Member {
    match u
    case SetHost(user, host) => m.(user := user, host := host)
    case SetAway(away) => m.(away := away)
    case SetAccount(account) => m.(account := account)
    case SetWhox(away, account, bot) => m.(away := away, account := account, bot := bot)
  }

  /** One change to one member map, wherever the member is found. */
  datatype Op =
    | Drop(key: string)
    | Rekey(key: string, to: string, nick: string)
    | Revise(key: string, update: Update)
    | Grant(key: string, symbol: string, rank: string)
    | Revoke(key: string, symbol: string)

  function RemoveAll(s: string, sub: string): (r: string)
    requires sub != ""
    ensures |r| <= |s|
  {
    if s == "" then ""
    else if sub <= s then RemoveAll(s[|sub|..], sub)
    else [s[0]] + RemoveAll(s[1..], sub)
  }

  /** strings.Index for a substring: -1 when absent. */
  function Index(s: string, sub: string): (i: int)
    ensures -1 <= i && (i >= 0 ==> i + |sub| <= |s| && s[i..i + |sub|] == sub)
  {
    if sub <= s then 0
    else if s == "" then -1
    else
      var i := Index(s[1..], sub);
      if i == -1 then -1 else i + 1
  }

  /** strings.IndexByte: the first position of `c`, or -1. */
  function IndexByte(s: string, c: char): (i: int)
    ensures -1 <= i < |s|
    ensures if i >= 0 then s[i] == c else c !in s
  {
    if s == "" then -1
    else if s[0] == c then 0
    else
      var i := IndexByte(s[1..], c);
      if i == -1 then -1 else i + 1
  }

  /** Position of the first status in `current`, from `i` on, that ranks below `pos`. */
  function InsertAt(rank: string, current: string, pos: int, i: nat): (at: nat)
    requires i <= |current|
    ensures i <= at <= |current|
    ensures forall k :: i <= k < at ==> IndexByte(rank, current[k]) <= pos
    ensures at < |current| ==> IndexByte(rank, current[at]) > pos
    decreases |current| - i
  {
    if i == |current| || IndexByte(rank, current[i]) > pos then i else InsertAt(rank, current, pos, i + 1)
  }

  function AddPrefix(rank: string, current: string, changed: string): (r: string)
    ensures r == current || |r| == |current| + |changed|
  {
    if changed == "" || Index(current, changed) >= 0 then current
    else
      var at := InsertAt(rank, current, Index(rank, changed), 0);
      current[..at] + changed + current[at..]
  }

  /** Over the byte budget only non-growing changes are accepted. */
  function OpIn(mp: Members, op: Op, over: bool): Members
    requires op.Revoke? ==> op.symbol != ""
  {
    if op.key !in mp then mp
    else
      var m := mp[op.key];
      match op
      case Drop(key) => mp - {key}
      case Rekey(key, to, nick) =>
        if over && MemberBytes(to, m.(nick := nick)) > MemberBytes(key, m) then mp
        else (mp - {key})[to := m.(nick := nick)]
      case Revise(key, update) =>
        if over && MemberBytes(key, Revised(update, m)) > MemberBytes(key, m) then mp
        else mp[key := Revised(update, m)]
      case Grant(key, symbol, rank) =>
        var np := AddPrefix(rank, m.prefix, symbol);
        if |np| > |m.prefix| && over then mp else mp[key := m.(prefix := np)]
      case Revoke(key, symbol) => mp[key := m.(prefix := RemoveAll(m.prefix, symbol))]
  }

  predicate ValidOp(op: Op) {
    op.Revoke? ==> op.symbol != ""
  }

  function OnBoth(c: Channel, op: Op, over: bool): Channel
    requires ValidOp(op)
  {
    c.(members := OpIn(c.members, op, over),
       pending := if c.pending.Some? then Some(OpIn(c.pending.value, op, over)) else None)
  }

  ghost function Everywhere(env: Env, s: State, op: Op): State
    requires ValidOp(op)
  {
    var over := Over(env, s);
    map k | k in s :: OnBoth(s[k], op, over)
  }

  ghost function InChannel(env: Env, s: State, ck: string, op: Op): State
    requires ValidOp(op) && ck in s
  {
    s[ck := OnBoth(s[ck], op, Over(env, s))]
  }

  // ---- Messages ------------------------------------------------------------------------------------------------

  datatype Message =
    | Names(channel: string, entries: seq<string>)
    | NamesEnd(channel: string)
    | Topic(channel: string, topic: string)
    | Join(channel: string, sender: string, user: string, host: string, account: string)
    | Part(channels: seq<string>, sender: string)
    | Kick(channels: seq<string>, victims: seq<string>)
    | Quit(sender: string)
    | Nick(sender: string, to: string)
    | Fact(nick: string, update: Update)          // CHGHOST, AWAY, ACCOUNT, WHOX
    | Mode(channel: string, letters: string, args: seq<string>)

  function PrefixLength(symbols: string, raw: string): (n: nat)
    ensures n <= |raw|
    ensures forall i :: 0 <= i < n ==> raw[i] in symbols
    ensures n < |raw| ==> raw[n] !in symbols
  {
    if raw == "" || raw[0] !in symbols then 0 else 1 + PrefixLength(symbols, raw[1..])
  }

  /** splitNamesPrefix: "@+nick!user@host" into a member with its status prefixes, all clamped. */
  function NamesMember(symbols: string, raw: string): Member {
    var n := PrefixLength(symbols, raw);
    var rest := raw[n..];
    var bang := IndexByte(rest, '!');
    if bang < 0 then Member(Clamp(rest), Clamp(raw[..n]), false, "", false, "", "")
    else
      var nick, id := rest[..bang], rest[bang + 1..];
      var at := IndexByte(id, '@');
      if at < 0 then Member(Clamp(nick), Clamp(raw[..n]), false, "", false, Clamp(id), "")
      else Member(Clamp(nick), Clamp(raw[..n]), false, "", false, Clamp(id[..at]), Clamp(id[at + 1..]))
  }

  function Delta(mp: Members, key: string, m: Member): int {
    MemberBytes(key, m) - if key in mp then MemberBytes(key, mp[key]) else 0
  }

  function NamesMembers(symbols: string, entries: seq<string>): seq<Member> {
    seq(|entries|, i requires 0 <= i < |entries| => NamesMember(symbols, entries[i]))
  }

  /** namesReply: the members of one 353 line, within the remaining count and byte budgets. */
  function AddNames(env: Env, mp: Members, listed: seq<Member>, budget: int, bytesLeft: int): Members
    decreases |listed|
  {
    if listed == [] || |mp| >= env.limits.channelMembers || budget <= 0 || bytesLeft <= 0 then mp
    else
      var m, k := listed[0], Fold(env.cm, listed[0].nick);
      AddNames(env, mp[k := m], listed[1..], if k in mp then budget else budget - 1, bytesLeft - Delta(mp, k, m))
  }

  ghost function OnNames(env: Env, s: State, ck: string, listed: seq<Member>): State {
    if ck !in s then s
    else
      var mp := AddNames(env, Pending(s[ck]), listed,
                         env.limits.members - TotalMembers(s), env.limits.bytes - TotalBytes(s));
      s[ck := s[ck].(pending := Some(mp))]
  }

  /** What survives from the old entry when NAMES, which carries no away, account or bot data, replaces it. */
  function Merge(entry: Member, prior: Member): Member {
    var m := entry.(away := prior.away, account := prior.account, bot := prior.bot);
    if m.user == "" && m.host == "" then m.(user := prior.user, host := prior.host) else m
  }

  function Merged(pending: Members, members: Members): Members {
    map k | k in pending :: if k in members then Merge(pending[k], members[k]) else pending[k]
  }

  function OnNamesEnd(s: State, ck: string): State {
    if ck !in s || s[ck].pending.None? then s
    else s[ck := s[ck].(members := Merged(s[ck].pending.value, s[ck].members), pending := None)]
  }

  ghost function OnTopic(env: Env, s: State, ck: string, topic: string): State {
    if ck !in s || (|topic| > |s[ck].topic| && Over(env, s)) then s
    else s[ck := s[ck].(topic := topic)]
  }

  function Ours(env: Env, ourNick: string, nick: string): bool {
    ourNick != "" && Fold(env.cm, nick) == Fold(env.cm, ourNick)
  }

  function Leave(s: State, ck: string, key: string, ours: bool): State {
    if ours then s - {ck}
    else if ck !in s then s
    else s[ck := OnBoth(s[ck], Drop(key), false)]
  }

  function LeaveAll(env: Env, ourNick: string, s: State, pairs: seq<(string, string)>): State
    decreases |pairs|
  {
    if pairs == [] then s
    else LeaveAll(env, ourNick, Leave(s, Key(env, pairs[0].0), Key(env, pairs[0].1), Ours(env, ourNick, pairs[0].1)), pairs[1..])
  }

  function PartPairs(channels: seq<string>, nick: string): seq<(string, string)> {
    seq(|channels|, i requires 0 <= i < |channels| => (channels[i], nick))
  }

  /** KICK: one channel with several victims, or parallel lists.  A split list is never empty. */
  function KickPairs(channels: seq<string>, victims: seq<string>): seq<(string, string)> {
    if channels == [] then []
    else seq(|victims|, i requires 0 <= i < |victims| =>
           (if |channels| == |victims| then channels[i] else channels[0], victims[i]))
  }

  /** joinChannel: only our own JOIN creates a channel, and only below the channel cap. */
  function Opened(env: Env, s: State, name: string, ours: bool): State {
    var ck := Fold(env.cm, name);
    if ck in s || !ours || |s| >= env.limits.channels then s
    else s[ck := Channel(name, "", map[], None)]
  }

  function JoinMember(msg: Message): Member
    requires msg.Join?
  {
    Member(Clamp(msg.sender), "", false, Clamp(msg.account), false, Clamp(msg.user), Clamp(msg.host))
  }

  /** memberJoin: `name` and `m` are already clamped. */
  ghost function OnJoin(env: Env, s: State, name: string, m: Member, ours: bool): State {
    var s1 := Opened(env, s, name, ours);
    var ck := Fold(env.cm, name);
    if ck !in s1 then s1 else Admit(env, s1, ck, m)
  }

  ghost function Admit(env: Env, s: State, ck: string, m: Member): State
    requires ck in s
  {
    var k := Fold(env.cm, m.nick);
    var c := s[ck];
    if k !in c.members && (|c.members| >= env.limits.channelMembers || TotalMembers(s) >= env.limits.members || Over(env, s))
    then s
    else if k in c.members && Over(env, s) && MemberBytes(k, m) > MemberBytes(k, c.members[k]) then s
    else
      var joined := s[ck := c.(members := c.members[k := m])];
      if c.pending.Some? && (k in c.pending.value || (TotalMembers(joined) < env.limits.members && !Over(env, s)))
      then joined[ck := joined[ck].(pending := Some(c.pending.value[k := m]))]
      else joined
  }

  /** What Go's string(byte) makes of a status symbol: one ASCII byte, or two bytes above it. */
  predicate Encoded(symbol: string) {
    || (|symbol| == 1 && symbol[0] as int < 128)
    || (|symbol| == 2 && symbol[0] as int >= 128 && symbol[1] as int >= 128)
  }

  /** Go's string(byte): one byte for ASCII, a two-byte UTF-8 encoding above. */
  function SymbolString(c: char): (r: string)
    ensures Encoded(r)
  {
    if c as int < 128 then [c]
    else [(0xC0 + c as int / 64) as char, (0x80 + c as int % 64) as char]
  }

  function StatusOp(env: Env, c: char, nick: string, adding: bool): (op: Op)
    requires WellFormed(env.modes) && c in env.modes.prefixModes
    ensures if adding then op.Grant? else op.Revoke?
    ensures Encoded(op.symbol) && Fold(env.cm, op.key) == op.key
  {
    FoldIdempotent(env.cm, Clamp(nick));
    var symbol := SymbolString(TableSymbol(env.modes, c));
    if adding then Grant(Key(env, nick), symbol, env.modes.prefixSymbols) else Revoke(Key(env, nick), symbol)
  }

  function TakesArg(kind: ModeClass, adding: bool): bool {
    kind.Status? || kind.ListArg? || kind.AlwaysArg? || (kind.ArgWhenSet? && adding)
  }

  /** applyChannelMode: the status changes a MODE line asks for, in order; `count` letters have been spent. */
  function ModeOps(env: Env, letters: string, adding: bool, args: seq<string>, count: nat): (ops: seq<Op>)
    requires WellFormed(env.modes)
    ensures StatusOps(ops) && forall op :: op in ops ==> Encoded(op.symbol) && Fold(env.cm, op.key) == op.key
    decreases |letters|
  {
    if letters == "" then []
    else if letters[0] == '+' then ModeOps(env, letters[1..], true, args, count)
    else if letters[0] == '-' then ModeOps(env, letters[1..], false, args, count)
    else if count + 1 > MAX_MODE_LETTERS then []
    else
      var kind := ScanClass(env.modes, letters[0]);
      var arg := if args == [] then "" else args[0];
      var rest := if TakesArg(kind, adding) && args != [] then args[1..] else args;
      (if kind.Status? then [StatusOp(env, letters[0], arg, adding)] else []) +
      ModeOps(env, letters[1..], adding, rest, count + 1)
  }

  predicate StatusOps(ops: seq<Op>) {
    forall op :: op in ops ==> (op.Grant? || op.Revoke?) && op.symbol != ""
  }

  /** Each letter is applied against the byte total the letters before it left. */
  ghost function OnMode(env: Env, s: State, ck: string, ops: seq<Op>): State
    requires StatusOps(ops)
    decreases |ops|
  {
    if ck !in s || ops == [] then s else OnMode(env, InChannel(env, s, ck, ops[0]), ck, ops[1..])
  }

  function ClampUpdate(u: Update): Update {
    match u
    case SetHost(user, host) => SetHost(Clamp(user), Clamp(host))
    case SetAway(away) => u
    case SetAccount(account) => SetAccount(Clamp(account))
    case SetWhox(away, account, bot) => SetWhox(away, Clamp(account), bot)
  }

  /** One server message, handled. */
  ghost function React(env: Env, ourNick: string, s: State, msg: Message): State
    requires WellFormed(env.modes)
  {
    match msg
    case Names(channel, entries) =>
      OnNames(env, s, Key(env, channel), NamesMembers(env.modes.prefixSymbols, entries))
    case NamesEnd(channel) => OnNamesEnd(s, Key(env, channel))
    case Topic(channel, topic) => OnTopic(env, s, Key(env, channel), Clamp(topic))
    case Join(channel, sender, _, _, _) =>
      OnJoin(env, s, Clamp(channel), JoinMember(msg), Ours(env, ourNick, sender))
    case Part(channels, sender) => LeaveAll(env, ourNick, s, PartPairs(channels, sender))
    case Kick(channels, victims) => LeaveAll(env, ourNick, s, KickPairs(channels, victims))
    case Quit(sender) => Everywhere(env, s, Drop(Key(env, sender)))
    case Nick(sender, to) => Everywhere(env, s, Rekey(Key(env, sender), Key(env, to), Clamp(to)))
    case Fact(nick, update) => Everywhere(env, s, Revise(Key(env, nick), ClampUpdate(update)))
    case Mode(channel, letters, args) =>
      OnMode(env, s, Key(env, channel), ModeOps(env, letters, true, args, 0))
  }
}
