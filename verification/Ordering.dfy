/** Byte order on strings, and insertion into an ordered sequence. */
module Ordering {

  predicate Before(a: string, b: string) {
    if b == "" then false
    else if a == "" then true
    else a[0] < b[0] || (a[0] == b[0] && Before(a[1..], b[1..]))
  }

  lemma {:induction false} BeforeTransitive(a: string, b: string, c: string)
    requires Before(a, b) && Before(b, c)
    ensures Before(a, c)
  {
    if a != "" && a[0] == b[0] && b[0] == c[0] { BeforeTransitive(a[1..], b[1..], c[1..]); }
  }

  lemma {:induction false} BeforeTotal(a: string, b: string)
    ensures Before(a, b) || Before(b, a) || a == b
    ensures !(Before(a, b) && Before(b, a)) && !Before(a, a)
    decreases |a|
  {
    if a != "" {
      BeforeTotal(a[1..], a[1..]);
      if b != "" {
        BeforeTotal(a[1..], b[1..]);
        if a[0] == b[0] && a[1..] == b[1..] { assert a == [a[0]] + a[1..] == [b[0]] + b[1..] == b; }
      }
    }
  }

  predicate Ordered(s: seq<string>) {
    forall i, j :: 0 <= i < j < |s| ==> Before(s[i], s[j])
  }

  function Insert(s: seq<string>, x: string): seq<string> {
    if s == [] || Before(x, s[0]) then [x] + s else [s[0]] + Insert(s[1..], x)
  }

  lemma {:induction false} InsertAdds(s: seq<string>, x: string)
    ensures multiset(Insert(s, x)) == multiset(s) + multiset{x}
  {
    if s != [] {
      assert s == [s[0]] + s[1..];
      InsertAdds(s[1..], x);
    }
  }

  lemma {:induction false} InsertOrdered(s: seq<string>, x: string)
    requires Ordered(s) && x !in s
    ensures Ordered(Insert(s, x))
  {
    if s != [] {
      BeforeTotal(x, s[0]);
      if Before(x, s[0]) {
        forall i | 0 < i < |s| ensures Before(x, s[i]) { BeforeTransitive(x, s[0], s[i]); }
      } else {
        InsertOrdered(s[1..], x);
        var t := Insert(s[1..], x);
        InsertAdds(s[1..], x);
        forall i | 0 <= i < |t| ensures Before(s[0], t[i]) {
          assert t[i] in multiset(t);
          if t[i] != x { assert t[i] in s[1..]; }
        }
      }
    }
  }

  /** A set `chosen` of `seen` keys holding the smallest ones. */
  predicate Smallest(chosen: set<string>, seen: set<string>) {
    && chosen <= seen
    && forall x, y :: x in chosen && y in seen && y !in chosen ==> Before(x, y)
  }

  function Elements(s: seq<string>): set<string> {
    set x | x in s
  }

  lemma SmallestFirst(p: seq<string>, s: seq<string>)
    requires Ordered(p) && Ordered(s) && Smallest(Elements(p), Elements(s)) && p != []
    ensures s != [] && p[0] == s[0]
  {
    assert p[0] in Elements(p) && p[0] in Elements(s);
    var j :| 0 <= j < |s| && s[j] == p[0];
    assert s[0] in Elements(s);
    BeforeTotal(s[0], p[0]);
    if s[0] in p {
      var i :| 0 <= i < |p| && p[i] == s[0];
    }
  }

  /** Two ordered sequences: the one holding the smallest elements is a prefix of the other. */
  lemma {:induction false} SmallestIsPrefix(p: seq<string>, s: seq<string>)
    requires Ordered(p) && Ordered(s) && Smallest(Elements(p), Elements(s))
    ensures p <= s
    decreases |p|
  {
    if p != [] {
      SmallestFirst(p, s);
      assert p == [p[0]] + p[1..] && s == [s[0]] + s[1..];
      forall x | x in Elements(p[1..]) ensures x in Elements(s[1..]) {
        var i :| 0 < i < |p| && p[i] == x;
        assert x in Elements(p) && x in Elements(s);
        BeforeTotal(p[0], x);
      }
      forall x, y | x in Elements(p[1..]) && y in Elements(s[1..]) && y !in Elements(p[1..]) ensures Before(x, y) {
        var k :| 0 < k < |s| && s[k] == y;
        BeforeTotal(s[0], y);
        assert x in Elements(p) && y in Elements(s) && y !in Elements(p);
      }
      SmallestIsPrefix(p[1..], s[1..]);
    }
  }

  /** sort.Strings on distinct keys. */
  method SortStrings(keys: seq<string>) returns (r: seq<string>)
    requires forall i, j :: 0 <= i < j < |keys| ==> keys[i] != keys[j]
    ensures Ordered(r) && multiset(r) == multiset(keys)
  {
    r := [];
    for n := 0 to |keys|
      invariant Ordered(r) && multiset(r) == multiset(keys[..n])
    {
      assert keys[n] !in multiset(keys[..n]) && keys[n] !in multiset(r);
      assert keys[..n + 1] == keys[..n] + [keys[n]];
      InsertAdds(r, keys[n]);
      InsertOrdered(r, keys[n]);
      r := Insert(r, keys[n]);
    }
    assert keys[..|keys|] == keys;
  }

  /** The keys of a roster in order. */
  ghost function Listing(keys: set<string>): seq<string> {
    if keys == {} then [] else var x :| x in keys; Insert(Listing(keys - {x}), x)
  }

  lemma {:induction false} ListingIsSorted(keys: set<string>)
    ensures Ordered(Listing(keys)) && multiset(Listing(keys)) == multiset(keys)
    ensures |Listing(keys)| == |keys| && forall k :: k in Listing(keys) <==> k in keys
  {
    assert forall k :: k in Listing(keys) <==> k in multiset(Listing(keys));
    assert |Listing(keys)| == |multiset(Listing(keys))|;
    if keys != {} {
      var x: string :| x in keys && Listing(keys) == Insert(Listing(keys - {x}), x);
      ListingIsSorted(keys - {x});
      var rest := Listing(keys - {x});
      assert x !in multiset(rest);
      InsertOrdered(rest, x);
      InsertAdds(rest, x);
      assert multiset(keys) == multiset(keys - {x}) + multiset{x};
    }
  }

  lemma DistinctIn(h: seq<string>, chosen: set<string>)
    requires multiset(h) == multiset(chosen)
    ensures forall i, j :: 0 <= i < j < |h| ==> h[i] != h[j]
  {
    forall i, j | 0 <= i < j < |h| ensures h[i] != h[j] {
      assert h == h[..j] + [h[j]] + h[j + 1..];
      var x := h[i];
      assert h[..j][i] == x;
      assert multiset(h)[x] == multiset(h[..j])[x] + multiset([h[j]])[x] + multiset(h[j + 1..])[x];
      assert x in multiset(h[..j]);
      assert multiset(chosen)[x] <= 1;
    }
  }

  /** An ordered sequence with these elements is the listing. */
  lemma ListingIsUnique(s: seq<string>, keys: set<string>)
    requires Ordered(s) && Elements(s) == keys
    ensures s == Listing(keys)
  {
    ListingIsSorted(keys);
    assert Elements(Listing(keys)) == keys;
    SmallestIsPrefix(s, Listing(keys));
    SmallestIsPrefix(Listing(keys), s);
  }

  /** No element twice. */
  predicate Distinct(s: seq<string>) {
    forall i, j :: 0 <= i < j < |s| ==> s[i] != s[j]
  }

  lemma {:induction false} DistinctCount(s: seq<string>)
    requires Distinct(s)
    ensures |Elements(s)| == |s|
  {
    if s != [] {
      var k := |s| - 1;
      DistinctCount(s[..k]);
      assert s == s[..k] + [s[k]];
      assert Elements(s) == Elements(s[..k]) + {s[k]};
    }
  }
}
