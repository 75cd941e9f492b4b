/**
 * Lists of records keyed by a string id, and the operations the program
 * runs on them: `findIndex` by id, the upsert of the persistence layer,
 * `filter` by id and `map` over the entries with a given id. The key is a
 * parameter so that download tasks and scheduled tasks share one definition.
 */
module IdLists {
  import opened Wrappers

  /** Some entry of `xs` has key `id`. */
  predicate HasKey<T>(xs: seq<T>, key: T -> string, id: string)
  {
    exists i :: 0 <= i < |xs| && key(xs[i]) == id
  }

  /** No two entries of `xs` share a key. */
  predicate UniqueKeys<T>(xs: seq<T>, key: T -> string)
  {
    forall i, j :: 0 <= i < j < |xs| ==> key(xs[i]) != key(xs[j])
  }

  /** `Array.prototype.findIndex` with an id test: the first position holding `id`, or -1. */
  function FindIndex<T>(xs: seq<T>, key: T -> string, id: string): (i: int)
    ensures -1 <= i < |xs|
    ensures 0 <= i ==> key(xs[i]) == id && forall j :: 0 <= j < i ==> key(xs[j]) != id
    ensures i < 0 <==> !HasKey(xs, key, id)
  {
    if xs == [] then -1
    else if key(xs[0]) == id then 0
    else
      var k := FindIndex(xs[1..], key, id);
      assert forall j :: 1 <= j < |xs| ==> xs[1..][j - 1] == xs[j];
      if k < 0 then -1 else k + 1
  }

  /** The first entry with key `id`, if any: what a read-back by id returns. */
  function Lookup<T>(xs: seq<T>, key: T -> string, id: string): (r: Option<T>)
    ensures r.Some? <==> HasKey(xs, key, id)
    ensures r.Some? ==> key(r.value) == id && r.value in xs
  {
    var i := FindIndex(xs, key, id);
    if i >= 0 then Some(xs[i]) else None
  }

  /** Replace the first entry with the same key as `x`, or append `x` when there is none. */
  function Upsert<T>(xs: seq<T>, key: T -> string, x: T): seq<T>
  {
    var i := FindIndex(xs, key, key(x));
    if i >= 0 then xs[i := x] else xs + [x]
  }

  /** `xs.filter(x => key(x) !== id)`. */
  function RemoveById<T>(xs: seq<T>, key: T -> string, id: string): seq<T>
  {
    if xs == [] then []
    else (if key(xs[0]) == id then [] else [xs[0]]) + RemoveById(xs[1..], key, id)
  }

  /** `xs.map(x => key(x) === id ? f(x) : x)`. */
  function MapWhere<T>(xs: seq<T>, key: T -> string, id: string, f: T -> T): seq<T>
  {
    seq(|xs|, i requires 0 <= i < |xs| => if key(xs[i]) == id then f(xs[i]) else xs[i])
  }

  // ---------------------------------------------------------------------------
  // Upsert

  /** An id not yet present is appended at the end: the length grows by one. */
  lemma UpsertAppendsNew<T>(xs: seq<T>, key: T -> string, x: T)
    requires !HasKey(xs, key, key(x))
    ensures Upsert(xs, key, x) == xs + [x]
    ensures |Upsert(xs, key, x)| == |xs| + 1
  {
  }

  /** An id already present: its first entry is replaced, every other position and the length are kept. */
  lemma UpsertReplacesFirst<T>(xs: seq<T>, key: T -> string, x: T)
    requires HasKey(xs, key, key(x))
    ensures var i := FindIndex(xs, key, key(x));
      && |Upsert(xs, key, x)| == |xs|
      && Upsert(xs, key, x)[i] == x
      && forall j :: 0 <= j < |xs| && j != i ==> Upsert(xs, key, x)[j] == xs[j]
  {
  }

  /** The entry read back by id right after an upsert is exactly the saved one. */
  lemma LookupAfterUpsert<T>(xs: seq<T>, key: T -> string, x: T)
    ensures Lookup(Upsert(xs, key, x), key, key(x)) == Some(x)
  {
    var i := FindIndex(xs, key, key(x));
    var r := Upsert(xs, key, x);
    if i >= 0 {
      var k := FindIndex(r, key, key(x));
      assert r[i] == x;
      assert forall j :: 0 <= j < i ==> r[j] == xs[j];
      assert k == i;
    } else {
      var k := FindIndex(r, key, key(x));
      assert r[|xs|] == x;
      assert forall j :: 0 <= j < |xs| ==> r[j] == xs[j];
      assert k == |xs|;
    }
  }

  /** An upsert does not change what is read back for any other id. */
  lemma LookupOtherAfterUpsert<T>(xs: seq<T>, key: T -> string, x: T, id: string)
    requires id != key(x)
    ensures Lookup(Upsert(xs, key, x), key, id) == Lookup(xs, key, id)
  {
    var r := Upsert(xs, key, x);
    var i := FindIndex(xs, key, key(x));
    assert forall j :: 0 <= j < |xs| && key(xs[j]) == id ==> r[j] == xs[j];
    assert forall j :: 0 <= j < |r| && key(r[j]) == id ==> j < |xs| && r[j] == xs[j];
    var a := FindIndex(xs, key, id);
    var b := FindIndex(r, key, id);
    if a >= 0 {
      assert b >= 0 && b <= a;
      assert b == a;
    } else {
      assert b < 0;
    }
  }

  /** Upserting keeps ids unique when they were unique before. */
  lemma UpsertKeepsUnique<T>(xs: seq<T>, key: T -> string, x: T)
    requires UniqueKeys(xs, key)
    ensures UniqueKeys(Upsert(xs, key, x), key)
  {
    var i := FindIndex(xs, key, key(x));
    var r := Upsert(xs, key, x);
    if i >= 0 {
      forall a, b | 0 <= a < b < |r|
        ensures key(r[a]) != key(r[b])
      {
        assert key(r[a]) == key(xs[a]) && key(r[b]) == key(xs[b]);
      }
    } else {
      forall a, b | 0 <= a < b < |r|
        ensures key(r[a]) != key(r[b])
      {
        if b == |xs| {
          assert r[b] == x && r[a] == xs[a];
        } else {
          assert r[a] == xs[a] && r[b] == xs[b];
        }
      }
    }
  }

  /** Two upserts with the same id leave what the second alone leaves: only the last save counts. */
  lemma UpsertAbsorbs<T>(xs: seq<T>, key: T -> string, x: T, y: T)
    requires key(x) == key(y)
    ensures Upsert(Upsert(xs, key, x), key, y) == Upsert(xs, key, y)
  {
    var i := FindIndex(xs, key, key(x));
    var r := Upsert(xs, key, x);
    var k := FindIndex(r, key, key(y));
    if i >= 0 {
      assert r[i] == x;
      assert forall j :: 0 <= j < i ==> r[j] == xs[j];
      assert k == i;
    } else {
      assert r[|xs|] == x;
      assert forall j :: 0 <= j < |xs| ==> r[j] == xs[j];
      assert k == |xs|;
    }
  }

  // ---------------------------------------------------------------------------
  // RemoveById

  /** What survives the filter: exactly the entries whose key is not `id`. */
  lemma {:induction false} RemoveByIdMembers<T>(xs: seq<T>, key: T -> string, id: string)
    ensures forall y :: y in RemoveById(xs, key, id) <==> y in xs && key(y) != id
    ensures !HasKey(RemoveById(xs, key, id), key, id)
    ensures |RemoveById(xs, key, id)| <= |xs|
  {
    if xs != [] {
      RemoveByIdMembers(xs[1..], key, id);
      assert xs == [xs[0]] + xs[1..];
    }
  }

  /** The filter distributes over concatenation, so survivors keep their relative order. */
  lemma {:induction false} RemoveByIdConcat<T>(a: seq<T>, b: seq<T>, key: T -> string, id: string)
    ensures RemoveById(a + b, key, id) == RemoveById(a, key, id) + RemoveById(b, key, id)
  {
    if a == [] {
      assert a + b == b;
    } else {
      assert (a + b)[0] == a[0];
      assert (a + b)[1..] == a[1..] + b;
      RemoveByIdConcat(a[1..], b, key, id);
    }
  }

  /** Removing an id that is absent leaves the list as it was. */
  lemma {:induction false} RemoveByIdAbsent<T>(xs: seq<T>, key: T -> string, id: string)
    requires !HasKey(xs, key, id)
    ensures RemoveById(xs, key, id) == xs
  {
    if xs != [] {
      assert key(xs[0]) != id;
      assert !HasKey(xs[1..], key, id) by {
        assert forall j :: 0 <= j < |xs[1..]| ==> xs[1..][j] == xs[j + 1];
      }
      RemoveByIdAbsent(xs[1..], key, id);
      assert xs == [xs[0]] + xs[1..];
    }
  }

  /** Removing the same id twice is the same as removing it once. */
  lemma RemoveByIdIdempotent<T>(xs: seq<T>, key: T -> string, id: string)
    ensures RemoveById(RemoveById(xs, key, id), key, id) == RemoveById(xs, key, id)
  {
    RemoveByIdMembers(xs, key, id);
    RemoveByIdAbsent(RemoveById(xs, key, id), key, id);
  }

  /** After the filter, nothing is read back for the removed id. */
  lemma LookupAfterRemove<T>(xs: seq<T>, key: T -> string, id: string)
    ensures Lookup(RemoveById(xs, key, id), key, id) == None
  {
    RemoveByIdMembers(xs, key, id);
  }

  // ---------------------------------------------------------------------------
  // MapWhere

  /** Mapping over matching entries keeps length and order and touches only the entries with `id`. */
  lemma MapWherePointwise<T>(xs: seq<T>, key: T -> string, id: string, f: T -> T)
    ensures |MapWhere(xs, key, id, f)| == |xs|
    ensures forall i :: 0 <= i < |xs| && key(xs[i]) == id ==> MapWhere(xs, key, id, f)[i] == f(xs[i])
    ensures forall i :: 0 <= i < |xs| && key(xs[i]) != id ==> MapWhere(xs, key, id, f)[i] == xs[i]
  {
  }

  /** With no entry holding `id`, the list comes back unchanged. */
  lemma MapWhereAbsent<T>(xs: seq<T>, key: T -> string, id: string, f: T -> T)
    requires !HasKey(xs, key, id)
    ensures MapWhere(xs, key, id, f) == xs
  {
  }
}
