/** The two `URLSearchParams` operations that `apiFetch` applies to the
    `session_id` parameter, over a query written as its list of pairs. */
module UrlQuery {

  type Query = seq<(string, string)>

  predicate HasParam(q: Query, key: string) {
    exists i :: 0 <= i < |q| && q[i].0 == key
  }

  /** Number of pairs in `q` whose key is `key`. */
  function Occurrences(q: Query, key: string): nat {
    if q == [] then 0 else (if q[0].0 == key then 1 else 0) + Occurrences(q[1..], key)
  }

  lemma {:induction false} OccurrencesPositive(q: Query, key: string)
    ensures HasParam(q, key) <==> Occurrences(q, key) > 0
  {
    if q != [] {
      OccurrencesPositive(q[1..], key);
      if q[0].0 != key && HasParam(q, key) {
        var i :| 0 <= i < |q| && q[i].0 == key;
        assert q[1..][i - 1].0 == key;
      }
      if HasParam(q[1..], key) {
        var i :| 0 <= i < |q[1..]| && q[1..][i].0 == key;
        assert q[i + 1].0 == key;
      }
    }
  }

  /** `searchParams.delete(key)`: every pair with that key goes, the rest stay in order. */
  function Delete(q: Query, key: string): (r: Query)
    ensures !HasParam(r, key)
    ensures forall p :: p in r <==> p in q && p.0 != key
    ensures !HasParam(q, key) ==> r == q
  {
    if q == [] then []
    else if q[0].0 == key then Delete(q[1..], key)
    else [q[0]] + Delete(q[1..], key)
  }

  /** Deleting removes exactly the pairs that carry the key. */
  lemma {:induction false} DeleteLength(q: Query, key: string)
    ensures |Delete(q, key)| == |q| - Occurrences(q, key)
  {
    if q != [] {
      DeleteLength(q[1..], key);
    }
  }

  /** Deleting distributes over concatenation, so the kept pairs keep their
      order and their repetitions: a pair with another key survives in place. */
  lemma {:induction false} DeleteConcat(a: Query, b: Query, key: string)
    ensures Delete(a + b, key) == Delete(a, key) + Delete(b, key)
  {
    if a == [] {
      assert a + b == b;
    } else {
      assert (a + b)[0] == a[0];
      assert (a + b)[1..] == a[1..] + b;
      DeleteConcat(a[1..], b, key);
    }
  }

  lemma ConcatTail<T>(a: seq<T>, b: seq<T>)
    requires a != []
    ensures (a + b)[0] == a[0] && (a + b)[1..] == a[1..] + b
  {
  }

  /** The position of the first pair with `key`. */
  function FirstIndex(q: Query, key: string): (i: nat)
    requires HasParam(q, key)
    ensures i < |q| && q[i].0 == key
    ensures forall j :: 0 <= j < i ==> q[j].0 != key
  {
    if q[0].0 == key then 0
    else
      assert HasParam(q[1..], key) by {
        var i :| 0 <= i < |q| && q[i].0 == key;
        assert q[1..][i - 1].0 == key;
      }
      1 + FirstIndex(q[1..], key)
  }

  /** `searchParams.set(key, value)`: the first pair with that key takes the new
      value in place and later pairs with it are dropped; with no such pair,
      one is appended. */
  function Set(q: Query, key: string, value: string): (r: Query)
    ensures Occurrences(r, key) == 1
    ensures forall p :: p in r && p.0 == key ==> p.1 == value
    ensures forall p: (string, string) :: p.0 != key ==> (p in r <==> p in q)
    ensures !HasParam(q, key) ==> r == q + [(key, value)]
    ensures HasParam(q, key) ==>
      r == q[..FirstIndex(q, key)] + [(key, value)] + Delete(q[FirstIndex(q, key) + 1..], key)
  {
    if !HasParam(q, key) then
      OccurrencesAppend(q, key, value);
      q + [(key, value)]
    else
      SetFirst(q, key, value)
  }

  lemma {:induction false} OccurrencesAppend(q: Query, key: string, value: string)
    requires !HasParam(q, key)
    ensures Occurrences(q + [(key, value)], key) == 1
  {
    if q == [] {
      assert [(key, value)][1..] == [];
    } else {
      assert (q + [(key, value)])[1..] == q[1..] + [(key, value)];
      assert !HasParam(q[1..], key) by {
        forall i | 0 <= i < |q[1..]| ensures q[1..][i].0 != key {
          assert q[1..][i] == q[i + 1];
        }
      }
      assert q[0].0 != key;
      OccurrencesAppend(q[1..], key, value);
    }
  }

  lemma {:induction false} OccurrencesDelete(q: Query, key: string)
    ensures Occurrences(Delete(q, key), key) == 0
  {
    OccurrencesPositive(Delete(q, key), key);
  }

  lemma {:induction false} OccurrencesConcat(a: Query, b: Query, key: string)
    ensures Occurrences(a + b, key) == Occurrences(a, key) + Occurrences(b, key)
  {
    if a == [] {
      assert a + b == b;
    } else {
      ConcatTail(a, b);
      OccurrencesConcat(a[1..], b, key);
    }
  }

  lemma SplitAt<T>(q: seq<T>, i: nat)
    requires i < |q|
    ensures q == q[..i] + [q[i]] + q[i + 1..]
  {
  }

  /** `set` on a query that has the key: the pairs before its first
      occurrence, that occurrence with the new value, then the rest without
      the key. */
  function SetFirst(q: Query, key: string, value: string): (r: Query)
    requires HasParam(q, key)
    ensures Occurrences(r, key) == 1
    ensures forall p :: p in r && p.0 == key ==> p.1 == value
    ensures forall p: (string, string) :: p.0 != key ==> (p in r <==> p in q)
  {
    var i := FirstIndex(q, key);
    var before, after := q[..i], Delete(q[i + 1..], key);
    SplitAt(q, i);
    assert !HasParam(before, key);
    OccurrencesPositive(before, key);
    OccurrencesDelete(q[i + 1..], key);
    OccurrencesConcat(before, [(key, value)], key);
    OccurrencesConcat(before + [(key, value)], after, key);
    assert [(key, value)][1..] == [];
    before + [(key, value)] + after
  }

  /** Deleting after setting removes the key entirely; setting twice keeps the last value. */
  lemma {:induction false} SetThenDelete(q: Query, key: string, value: string)
    ensures Delete(Set(q, key, value), key) == Delete(q, key)
  {
    if !HasParam(q, key) {
      DeleteAppend(q, key, value);
    } else {
      SetFirstThenDelete(q, key, value);
    }
  }

  lemma {:induction false} DeleteAppend(q: Query, key: string, value: string)
    ensures Delete(q + [(key, value)], key) == Delete(q, key)
  {
    if q == [] {
      assert [(key, value)][1..] == [];
    } else {
      assert (q + [(key, value)])[1..] == q[1..] + [(key, value)];
      DeleteAppend(q[1..], key, value);
    }
  }

  lemma {:induction false} DeleteIdempotent(q: Query, key: string)
    ensures Delete(Delete(q, key), key) == Delete(q, key)
  {
  }

  lemma {:induction false} SetFirstThenDelete(q: Query, key: string, value: string)
    requires HasParam(q, key)
    ensures Delete(SetFirst(q, key, value), key) == Delete(q, key)
  {
    var i := FirstIndex(q, key);
    var before, rest := q[..i], q[i + 1..];
    assert SetFirst(q, key, value) == before + [(key, value)] + Delete(rest, key);
    DeleteConcat(before + [(key, value)], Delete(rest, key), key);
    DeleteAppend(before, key, value);
    SplitAt(q, i);
    assert q[i] == (key, q[i].1);
    DeleteConcat(before + [(key, q[i].1)], rest, key);
    DeleteAppend(before, key, q[i].1);
  }
}
