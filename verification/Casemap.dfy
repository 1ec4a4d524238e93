/** Name folding under ISUPPORT CASEMAPPING. */
module Casemap {

  datatype CaseMapping = Rfc1459 | Rfc1459Strict | Ascii

  function FoldChar(cm: CaseMapping, c: char): char {
    if 'A' <= c <= 'Z' then (c as int + 32) as char
    else if cm.Ascii? then c
    else if c == '[' then '{'
    else if c == ']' then '}'
    else if c == '\\' then '|'
    else if c == '~' && cm.Rfc1459? then '^'
    else c
  }

  function Fold(cm: CaseMapping, s: string): (folded: string)
    ensures |folded| == |s|
    ensures forall i :: 0 <= i < |s| ==> folded[i] == FoldChar(cm, s[i])
  {
    seq(|s|, i requires 0 <= i < |s| => FoldChar(cm, s[i]))
  }

  function Folds(cm: CaseMapping, names: seq<string>): set<string> {
    set n | n in names :: Fold(cm, n)
  }

  /** A folded name is its own key, so keys can be looked up by any spelling. */
  lemma FoldIdempotent(cm: CaseMapping, s: string)
    ensures Fold(cm, Fold(cm, s)) == Fold(cm, s)
  {
    assert forall c :: FoldChar(cm, FoldChar(cm, c)) == FoldChar(cm, c);
  }
}
