/** The pre-image of the auth request's signature: the parameters sorted by name
    (JavaScript's default `sort`, which orders strings by code unit), written as
    `name=value`, joined with `&`, with the secret appended. */
module Signature {
  import opened Text

  const DefaultSecret := "dramabox_secret_key"

  /** One request parameter: its name and its value already turned into text. */
  type Param = (string, string)

  /** Strict string order of the default `sort`: a proper prefix comes first,
      otherwise the first differing character decides. */
  predicate Below(a: string, b: string)
    decreases |a|
  {
    |b| > 0 && (|a| == 0 || a[0] < b[0] || (a[0] == b[0] && Below(a[1..], b[1..])))
  }

  lemma {:induction false} BelowIrreflexive(a: string)
    ensures !Below(a, a)
    decreases |a|
  {
    if |a| > 0 {
      BelowIrreflexive(a[1..]);
    }
  }

  lemma {:induction false} BelowTransitive(a: string, b: string, c: string)
    requires Below(a, b) && Below(b, c)
    ensures Below(a, c)
    decreases |a|
  {
    if |a| > 0 && a[0] == b[0] && b[0] == c[0] {
      BelowTransitive(a[1..], b[1..], c[1..]);
    }
  }

  lemma {:induction false} BelowTotal(a: string, b: string)
    ensures a == b || Below(a, b) || Below(b, a)
    decreases |a|
  {
    if |a| > 0 && |b| > 0 && a[0] == b[0] {
      BelowTotal(a[1..], b[1..]);
      if a[1..] == b[1..] {
        assert a == [a[0]] + a[1..] && b == [b[0]] + b[1..];
      }
    }
  }

  lemma BelowAsymmetric(a: string, b: string)
    requires Below(a, b)
    ensures !Below(b, a)
  {
    if Below(b, a) {
      BelowTransitive(a, b, a);
      BelowIrreflexive(a);
    }
  }

  /** No two parameters share a name, as in a JavaScript object. */
  predicate DistinctKeys(ps: seq<Param>) {
    forall i, j :: 0 <= i < j < |ps| ==> ps[i].0 != ps[j].0
  }

  /** Names strictly ascending. */
  predicate SortedByKey(ps: seq<Param>) {
    forall i, j :: 0 <= i < j < |ps| ==> Below(ps[i].0, ps[j].0)
  }

  /** Inserts a parameter into a list sorted by name, before the first name it
      is below. */
  function Insert(p: Param, ps: seq<Param>): (r: seq<Param>)
    ensures multiset(r) == multiset(ps) + multiset{p}
  {
    if |ps| == 0 then [p]
    else if Below(p.0, ps[0].0) then [p] + ps
    else
      assert ps == [ps[0]] + ps[1..];
      [ps[0]] + Insert(p, ps[1..])
  }

  /** Every name in a list with the same parameters as `ps` stands where some
      name of `ps` stands. */
  lemma InMultiset(x: Param, ps: seq<Param>)
    requires x in multiset(ps)
    ensures exists k :: 0 <= k < |ps| && ps[k] == x
  {
  }

  /** Inserting a new name into a sorted list keeps it sorted. */
  lemma {:induction false} InsertSorted(p: Param, ps: seq<Param>)
    requires SortedByKey(ps)
    requires forall i :: 0 <= i < |ps| ==> ps[i].0 != p.0
    ensures SortedByKey(Insert(p, ps))
    decreases |ps|
  {
    if |ps| == 0 {
    } else if Below(p.0, ps[0].0) {
      forall i | 0 < i < |ps|
        ensures Below(p.0, ps[i].0)
      {
        BelowTransitive(p.0, ps[0].0, ps[i].0);
      }
    } else {
      BelowTotal(p.0, ps[0].0);
      var tail := Insert(p, ps[1..]);
      InsertSorted(p, ps[1..]);
      forall j | 0 <= j < |tail|
        ensures Below(ps[0].0, tail[j].0)
      {
        assert tail[j] in multiset(tail);
        if tail[j] != p {
          InMultiset(tail[j], ps[1..]);
        }
      }
    }
  }

  /** The parameters ordered by name: each inserted, last first, into the sorted
      rest. */
  function SortByKey(ps: seq<Param>): (r: seq<Param>)
    ensures multiset(r) == multiset(ps)
  {
    if |ps| == 0 then []
    else
      assert ps == [ps[0]] + ps[1..];
      Insert(ps[0], SortByKey(ps[1..]))
  }

  /** Parameters with distinct names come out sorted. */
  lemma {:induction false} SortSorted(ps: seq<Param>)
    requires DistinctKeys(ps)
    ensures SortedByKey(SortByKey(ps))
  {
    if |ps| > 0 {
      var rest := SortByKey(ps[1..]);
      SortSorted(ps[1..]);
      forall i | 0 <= i < |rest|
        ensures rest[i].0 != ps[0].0
      {
        assert rest[i] in multiset(ps[1..]);
        InMultiset(rest[i], ps[1..]);
      }
      InsertSorted(ps[0], rest);
    }
  }

  /** Two lists sorted by name that hold the same parameters are the same list. */
  lemma {:induction false} SortedUnique(a: seq<Param>, b: seq<Param>)
    requires SortedByKey(a) && SortedByKey(b)
    requires multiset(a) == multiset(b)
    ensures a == b
    decreases |a|
  {
    if |a| == 0 {
      assert |multiset(b)| == 0;
    } else {
      assert |b| > 0 by {
        assert a[0] in multiset(b);
      }
      assert a[0] == b[0] by {
        if a[0] != b[0] {
          assert a[0] in multiset(b);
          var j :| 0 <= j < |b| && b[j] == a[0];
          assert b[0] in multiset(a);
          var i :| 0 <= i < |a| && a[i] == b[0];
          assert Below(b[0].0, a[0].0);
          BelowAsymmetric(b[0].0, a[0].0);
          assert false;
        }
      }
      assert a == [a[0]] + a[1..] && b == [b[0]] + b[1..];
      assert multiset(a) == multiset{a[0]} + multiset(a[1..]);
      assert multiset(b) == multiset{b[0]} + multiset(b[1..]);
      assert forall x :: multiset(a[1..])[x] == multiset(b[1..])[x] by {
        forall x
          ensures multiset(a[1..])[x] == multiset(b[1..])[x]
        {
          assert multiset(a)[x] == multiset(b)[x];
        }
      }
      assert multiset(a[1..]) == multiset(b[1..]);
      SortedUnique(a[1..], b[1..]);
    }
  }

  /** `name=value` for each parameter, in the given order. */
  function Pairs(ps: seq<Param>): (r: seq<string>)
    ensures |r| == |ps|
  {
    seq(|ps|, i requires 0 <= i < |ps| => ps[i].0 + "=" + ps[i].1)
  }

  /** The signed text: sorted `name=value` pairs joined by `&`, then the secret. */
  function SignString(params: seq<Param>, secret: string): string
    requires DistinctKeys(params)
  {
    Join(Pairs(SortByKey(params)), "&") + secret
  }

  /** The signed text depends only on which parameters there are, never on the
      order in which the object received them. */
  lemma InsertionOrderIrrelevant(p: seq<Param>, q: seq<Param>, secret: string)
    requires DistinctKeys(p) && DistinctKeys(q)
    requires multiset(p) == multiset(q)
    ensures SignString(p, secret) == SignString(q, secret)
  {
    SortSorted(p);
    SortSorted(q);
    SortedUnique(SortByKey(p), SortByKey(q));
  }

  /** A list already sorted by name is signed in its own order. */
  lemma SignStringOfSorted(ps: seq<Param>, secret: string)
    requires SortedByKey(ps)
    ensures DistinctKeys(ps)
    ensures SignString(ps, secret) == Join(Pairs(ps), "&") + secret
  {
    assert DistinctKeys(ps) by {
      forall i, j | 0 <= i < j < |ps|
        ensures ps[i].0 != ps[j].0
      {
        if ps[i].0 == ps[j].0 {
          BelowIrreflexive(ps[i].0);
        }
      }
    }
    SortSorted(ps);
    SortedUnique(SortByKey(ps), ps);
  }
}
