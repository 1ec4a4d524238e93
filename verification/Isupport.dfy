/** RPL_ISUPPORT: the casemapping pin and the per-line mode tables. */
module Isupport {
  import opened Casemap

  const MAX_KEYS := 256
  const MAX_VALUE := 512
  const MAX_KEY := 64
  const CASEMAPPING := "CASEMAPPING"

  // ---- CASEMAPPING ------------------------------------------------------------------------------------

  datatype Pin = Pin(raw: map<string, string>, mapping: CaseMapping, locked: bool)

  const UNPINNED := Pin(map[], Rfc1459, false)

  /** One 005 token: `-NAME`, or NAME with its unescaped value. */
  datatype Token = Negate(name: string) | Set(name: string, value: string)

  function Named(value: string): (cm: seq<CaseMapping>)
    ensures |cm| <= 1
  {
    if value == "rfc1459" then [Rfc1459]
    else if value == "rfc1459-strict" then [Rfc1459Strict]
    else if value == "ascii" then [Ascii]
    else []
  }

  function ApplyToken(p: Pin, t: Token): Pin {
    match t
    case Negate(name) =>
      Pin(p.raw - {name}, if name == CASEMAPPING && !p.locked then Rfc1459 else p.mapping, p.locked)
    case Set(name, value) =>
      if |name| > MAX_KEY || |value| > MAX_VALUE then p
      else if name !in p.raw && |p.raw| >= MAX_KEYS then p
      else
        var q := p.(raw := p.raw[name := value]);
        if name == CASEMAPPING && !p.locked && Named(value) != [] then q.(mapping := Named(value)[0], locked := true)
        else q
  }

  function ApplyTokens(p: Pin, ts: seq<Token>): Pin {
    if ts == [] then p else ApplyToken(ApplyTokens(p, ts[..|ts| - 1]), ts[|ts| - 1])
  }

  lemma {:induction false} LockedStays(p: Pin, ts: seq<Token>)
    requires p.locked
    ensures ApplyTokens(p, ts).locked && ApplyTokens(p, ts).mapping == p.mapping
  {
    if ts != [] { LockedStays(p, ts[..|ts| - 1]); }
  }

  lemma {:induction false} ApplyTokensAppend(p: Pin, a: seq<Token>, b: seq<Token>)
    ensures ApplyTokens(p, a + b) == ApplyTokens(ApplyTokens(p, a), b)
  {
    if b == [] {
      assert a + b == a;
    } else {
      assert (a + b)[..|a + b| - 1] == a + b[..|b| - 1];
      ApplyTokensAppend(p, a, b[..|b| - 1]);
    }
  }

  /** Over a whole connection folding changes at most once: it is the RFC 1459 default until the first
      accepted explicit mapping, and that mapping from then on. */
  lemma {:induction false} MappingChangesAtMostOnce(ts: seq<Token>, i: nat, j: nat)
    requires i <= j <= |ts|
    ensures var a, b := ApplyTokens(UNPINNED, ts[..i]), ApplyTokens(UNPINNED, ts[..j]);
            (!a.locked ==> a.mapping == Rfc1459) && (a.locked ==> b.locked && b.mapping == a.mapping)
  {
    DefaultUntilLocked(ts[..i]);
    assert ts[..j] == ts[..i] + ts[i..j];
    ApplyTokensAppend(UNPINNED, ts[..i], ts[i..j]);
    if ApplyTokens(UNPINNED, ts[..i]).locked { LockedStays(ApplyTokens(UNPINNED, ts[..i]), ts[i..j]); }
  }

  lemma {:induction false} DefaultUntilLocked(ts: seq<Token>)
    ensures !ApplyTokens(UNPINNED, ts).locked ==> ApplyTokens(UNPINNED, ts).mapping == Rfc1459
  {
    if ts != [] { DefaultUntilLocked(ts[..|ts| - 1]); }
  }

  // ---- Channel modes -------------------------------------------------------------------------------------

  datatype ModeClass = Unknown | ListArg | AlwaysArg | ArgWhenSet | NeverArg | Status

  /** PREFIX halves (equal lengths, highest rank first) and the four CHANMODES sets. */
  datatype Modes = Modes(prefixModes: string, prefixSymbols: string, sets: seq<string>)

  predicate WellFormed(m: Modes) {
    |m.prefixModes| == |m.prefixSymbols| && |m.sets| == 4
  }

  function SetClass(i: nat): ModeClass {
    if i == 0 then ListArg else if i == 1 then AlwaysArg else if i == 2 then ArgWhenSet else NeverArg
  }

  /** ChanModeType: scan PREFIX, then the CHANMODES sets in order. */
  function ScanClass(m: Modes, c: char): ModeClass {
    if c in m.prefixModes then Status else ScanSets(m.sets, 0, c)
  }

  function ScanSets(sets: seq<string>, i: nat, c: char): (kind: ModeClass)
    ensures !kind.Status?
    decreases |sets| - i
  {
    if i >= |sets| then Unknown else if c in sets[i] then SetClass(i) else ScanSets(sets, i + 1, c)
  }

  function FirstIndex(s: string, c: char): nat
    requires c in s
    ensures FirstIndex(s, c) < |s| && s[FirstIndex(s, c)] == c && c !in s[..FirstIndex(s, c)]
  {
    if s[0] == c then 0 else 1 + FirstIndex(s[1..], c)
  }

  function LastIndex(s: string, c: char): nat
    requires c in s
    ensures LastIndex(s, c) < |s| && s[LastIndex(s, c)] == c && c !in s[LastIndex(s, c) + 1..]
  {
    if s[|s| - 1] == c then |s| - 1 else LastIndex(s[..|s| - 1], c)
  }

  /** SymbolForMode: the symbol beside the first occurrence of a status letter. */
  function ScanSymbol(m: Modes, c: char): char
    requires WellFormed(m) && c in m.prefixModes
  {
    m.prefixSymbols[FirstIndex(m.prefixModes, c)]
  }

  /** What the table holds for a status letter: the symbol beside its last occurrence. */
  function TableSymbol(m: Modes, c: char): char
    requires WellFormed(m) && c in m.prefixModes
  {
    m.prefixSymbols[LastIndex(m.prefixModes, c)]
  }

  datatype ModeTable = ModeTable(classes: map<char, ModeClass>, symbols: map<char, char>)

  function Class(t: ModeTable, c: char): ModeClass {
    if c in t.classes then t.classes[c] else Unknown
  }

  /** Letters of one CHANMODES set that no earlier table entry claims. */
  method AddSet(classes: map<char, ModeClass>, letters: string, kind: ModeClass) returns (r: map<char, ModeClass>)
    ensures forall c :: c in r <==> c in classes || c in letters
    ensures forall c :: c in classes ==> r[c] == classes[c]
    ensures forall c :: c in letters && c !in classes ==> r[c] == kind
  {
    r := classes;
    for k := 0 to |letters|
      invariant forall c :: c in r <==> c in classes || c in letters[..k]
      invariant forall c :: c in classes ==> r[c] == classes[c]
      invariant forall c :: c in letters[..k] && c !in classes ==> r[c] == kind
    {
      assert letters[..k + 1] == letters[..k] + [letters[k]];
      if letters[k] !in r { r := r[letters[k] := kind]; }
    }
    assert letters[..|letters|] == letters;
  }

  method StatusTables(m: Modes) returns (classes: map<char, ModeClass>, symbols: map<char, char>)
    requires WellFormed(m)
    ensures forall c :: c in classes <==> c in m.prefixModes
    ensures forall c :: c in classes ==> classes[c] == Status
    ensures forall c :: c in symbols <==> c in m.prefixModes
    ensures forall c :: c in m.prefixModes ==> symbols[c] == TableSymbol(m, c)
  {
    classes, symbols := map[], map[];
    for i := 0 to |m.prefixModes|
      invariant forall c :: c in classes <==> c in m.prefixModes[..i]
      invariant forall c :: c in classes ==> classes[c] == Status
      invariant forall c :: c in symbols <==> c in m.prefixModes[..i]
      invariant forall c :: c in symbols ==> symbols[c] == m.prefixSymbols[LastIndex(m.prefixModes[..i], c)]
    {
      assert m.prefixModes[..i + 1] == m.prefixModes[..i] + [m.prefixModes[i]];
      assert m.prefixModes[..i + 1][..i] == m.prefixModes[..i];
      classes := classes[m.prefixModes[i] := Status];
      symbols := symbols[m.prefixModes[i] := m.prefixSymbols[i]];
    }
    assert m.prefixModes[..|m.prefixModes|] == m.prefixModes;
  }

  /** Is the letter in one of the first `n` sets? */
  predicate InSets(sets: seq<string>, n: nat, c: char)
    requires n <= |sets|
  {
    n > 0 && (c in sets[n - 1] || InSets(sets, n - 1, c))
  }

  /** modeClassifier: build both tables in one pass over PREFIX and CHANMODES. */
  method ModeClassifier(m: Modes) returns (t: ModeTable)
    requires WellFormed(m)
    ensures forall c :: Class(t, c) == ScanClass(m, c)
    ensures forall c :: c in t.symbols <==> c in m.prefixModes
    ensures forall c :: c in m.prefixModes ==> t.symbols[c] == TableSymbol(m, c)
  {
    var classes, symbols := StatusTables(m);
    for i := 0 to |m.sets|
      invariant forall c :: c in classes <==> c in m.prefixModes || InSets(m.sets, i, c)
      invariant forall c :: c in classes ==> classes[c] == ScanClass(m, c)
    {
      forall c | c in m.sets[i] && c !in classes ensures ScanClass(m, c) == SetClass(i) {
        ScanSkips(m.sets, 0, i, c);
      }
      classes := AddSet(classes, m.sets[i], SetClass(i));
    }
    forall c | c !in classes ensures ScanClass(m, c) == Unknown { ScanSkips(m.sets, 0, |m.sets|, c); }
    t := ModeTable(classes, symbols);
  }

  /** Scanning passes over the sets before the first one that holds the letter. */
  lemma {:induction false} ScanSkips(sets: seq<string>, from: nat, i: nat, c: char)
    requires from <= i <= |sets| && !InSets(sets, i, c) && (i < |sets| ==> c in sets[i])
    ensures ScanSets(sets, from, c) == if i < |sets| then SetClass(i) else Unknown
    decreases i - from
  {
    if from < i {
      NotInSets(sets, i, from, c);
      ScanSkips(sets, from + 1, i, c);
    }
  }

  lemma {:induction false} NotInSets(sets: seq<string>, n: nat, j: nat, c: char)
    requires j < n <= |sets| && !InSets(sets, n, c)
    ensures c !in sets[j]
  {
    if j < n - 1 { NotInSets(sets, n - 1, j, c); }
  }

  predicate IsFirst(s: string, i: nat)
    requires i < |s|
  {
    s[i] !in s[..i]
  }

  predicate IsLast(s: string, i: nat)
    requires i < |s|
  {
    s[i] !in s[i + 1..]
  }

  /** No letter is repeated in PREFIX with different symbols at its first and last occurrence. */
  ghost predicate ConsistentRepeats(m: Modes)
    requires WellFormed(m)
  {
    forall i, j :: 0 <= i < |m.prefixModes| && 0 <= j < |m.prefixModes| && IsFirst(m.prefixModes, i) &&
                   IsLast(m.prefixModes, j) && m.prefixModes[i] == m.prefixModes[j]
                   ==> m.prefixSymbols[i] == m.prefixSymbols[j]
  }

  /** The table and the scan give every status letter the same symbol exactly when repeats are consistent. */
  lemma SymbolTableAgreesIff(m: Modes)
    requires WellFormed(m)
    ensures (forall c :: c in m.prefixModes ==> TableSymbol(m, c) == ScanSymbol(m, c)) <==> ConsistentRepeats(m)
  {
    var s := m.prefixModes;
    if ConsistentRepeats(m) {
      forall c | c in s ensures TableSymbol(m, c) == ScanSymbol(m, c) {
        assert IsFirst(s, FirstIndex(s, c)) && IsLast(s, LastIndex(s, c));
      }
    }
    if forall c :: c in s ==> TableSymbol(m, c) == ScanSymbol(m, c) {
      forall i, j | 0 <= i < |s| && 0 <= j < |s| && IsFirst(s, i) && IsLast(s, j) && s[i] == s[j]
        ensures m.prefixSymbols[i] == m.prefixSymbols[j]
      {
        FirstIs(s, i);
        LastIs(s, j);
        assert TableSymbol(m, s[i]) == ScanSymbol(m, s[i]);
      }
    }
  }

  lemma {:induction false} FirstIs(s: string, i: nat)
    requires i < |s| && IsFirst(s, i)
    ensures FirstIndex(s, s[i]) == i
  {
    if i > 0 {
      assert s[..i][0] == s[0];
      assert s[1..][..i - 1] == s[..i][1..];
      FirstIs(s[1..], i - 1);
    }
  }

  lemma {:induction false} LastIs(s: string, i: nat)
    requires i < |s| && IsLast(s, i)
    ensures LastIndex(s, s[i]) == i
  {
    if i < |s| - 1 {
      assert s[i + 1..][|s| - i - 2] == s[|s| - 1];
      assert s[..|s| - 1][i + 1..] == s[i + 1..][..|s| - i - 2];
      LastIs(s[..|s| - 1], i);
    }
  }

  /** The disagreement is real: PREFIX=(oo)@% maps `o` to `@` by scanning and to `%` by table. */
  lemma RepeatedLetterDisagrees()
    ensures var m := Modes("oo", "@%", ["b", "k", "l", "imnpst"]);
            WellFormed(m) && 'o' in m.prefixModes && TableSymbol(m, 'o') != ScanSymbol(m, 'o')
  {
    assert "oo"[0] == 'o';
    FirstIs("oo", 0);
    LastIs("oo", 1);
  }
}
