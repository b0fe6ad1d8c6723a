/**
 Hash-map iteration. The source walks and drains hash maps whose order is unspecified, so
 every walk takes an order from outside and all results hold for each of them.
 */
module Order {

  /** The keys named by `wish`, in that order and once each. */
  function Named<T(==,!new)>(wish: seq<T>, keys: set<T>): (r: seq<T>)
    ensures Distinct(r)
    ensures forall k :: k in r <==> k in keys && k in wish
  {
    if wish == [] then []
    else if wish[0] in keys then [wish[0]] + Named(wish[1..], keys - {wish[0]})
    else Named(wish[1..], keys)
  }

  ghost function Arbitrary<T(!new)>(keys: set<T>): (r: seq<T>)
    ensures Distinct(r)
    ensures forall k :: k in r <==> k in keys
  {
    if keys == {} then [] else
      var k :| k in keys;
      [k] + Arbitrary(keys - {k})
  }

  predicate Distinct<T(==)>(s: seq<T>) {
    forall i, j | 0 <= i < j < |s| :: s[i] != s[j]
  }

  /** One walk over a hash map with these keys; `wish` picks which of the possible orders. */
  ghost function Visit<T(!new)>(wish: seq<T>, keys: set<T>): (r: seq<T>)
    ensures Distinct(r)
    ensures forall k :: k in r <==> k in keys
  {
    var first := Named(wish, keys);
    var others := set k | k in keys && k !in wish;
    var rest := Arbitrary(others);
    assert forall i, j | 0 <= i < |first| && 0 <= j < |rest| :: first[i] != rest[j] by {
      assert forall j | 0 <= j < |rest| :: rest[j] in rest && rest[j] in others;
    }
    first + rest
  }

  /** No order is ruled out: each listing of the keys is the walk some wish asks for. */
  lemma {:induction false} EveryOrder<T(!new)>(listing: seq<T>)
    requires Distinct(listing)
    ensures Visit(listing, set k | k in listing) == listing
  {
    var keys := set k | k in listing;
    NamedAll(listing, keys);
    assert (set k | k in keys && k !in listing) == {};
    assert Arbitrary<T>({}) == [];
  }

  lemma {:induction false} NamedAll<T(!new)>(listing: seq<T>, keys: set<T>)
    requires Distinct(listing)
    requires keys == set k | k in listing
    ensures Named(listing, keys) == listing
  {
    if listing != [] {
      var rest := keys - {listing[0]};
      assert rest == set k | k in listing[1..] by {
        forall k ensures k in rest <==> k in listing[1..] {
          if k in listing[1..] {
            assert k != listing[0];
          }
        }
      }
      NamedAll(listing[1..], rest);
    }
  }

  /** A walk under way: `order` lists what has been visited of `keys`, `left` is what has not. */
  ghost predicate Swept<T(!new)>(keys: set<T>, left: set<T>, order: seq<T>) {
    && left <= keys
    && Distinct(order)
    && forall k :: k in order <==> k in keys && k !in left
  }

  lemma SweptStart<T(!new)>(keys: set<T>)
    ensures Swept(keys, keys, [])
  {
  }

  lemma SweptStep<T(!new)>(keys: set<T>, left: set<T>, order: seq<T>, k: T)
    requires Swept(keys, left, order) && k in left
    ensures Swept(keys, left - {k}, order + [k])
  {
  }

  /** A completed walk is one the hash map could have made. */
  lemma SweptAll<T(!new)>(keys: set<T>, order: seq<T>)
    requires Swept(keys, {}, order)
    ensures Visit(order, keys) == order
  {
    EveryOrder(order);
    assert keys == set k | k in order;
  }
}
