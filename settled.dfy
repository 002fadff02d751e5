/** Settled product lookups: a batch of lookups run together, of which only
    the fulfilled ones are kept, in the order of the ids. */
module Settled {
  import opened Wrappers
  import opened Types

  /** The outcome of each lookup, in id order. */
  function Lookups(ids: seq<int>, lookup: int -> Result<Product, string>): (r: seq<Result<Product, string>>)
    ensures |r| == |ids|
    ensures forall k :: 0 <= k < |ids| ==> r[k] == lookup(ids[k])
  {
    seq(|ids|, k requires 0 <= k < |ids| => lookup(ids[k]))
  }

  /** The values of the fulfilled outcomes, in order. */
  function Fulfilled(results: seq<Result<Product, string>>): (r: seq<Product>)
    ensures |r| <= |results|
    ensures forall p :: p in r <==> Ok(p) in results
  {
    if results == [] then []
    else
      var rest := Fulfilled(results[1..]);
      assert forall x :: x in results <==> x == results[0] || x in results[1..];
      match results[0]
      case Ok(p) => [p] + rest
      case Err(_) => rest
  }

  lemma {:induction false} FulfilledConcat(a: seq<Result<Product, string>>, b: seq<Result<Product, string>>)
    ensures Fulfilled(a + b) == Fulfilled(a) + Fulfilled(b)
  {
    if a == [] {
      assert a + b == b;
    } else {
      assert (a + b)[1..] == a[1..] + b;
      FulfilledConcat(a[1..], b);
    }
  }

  /** A failed lookup drops its own product and nothing else; a fulfilled one
      contributes its product at its own place. */
  lemma OneOutcome(a: seq<Result<Product, string>>, x: Result<Product, string>, b: seq<Result<Product, string>>)
    ensures x.Err? ==> Fulfilled(a + [x] + b) == Fulfilled(a + b)
    ensures x.Ok? ==> Fulfilled(a + [x] + b) == Fulfilled(a) + [x.value] + Fulfilled(b)
  {
    FulfilledConcat(a + [x], b);
    FulfilledConcat(a, [x]);
    FulfilledConcat(a, b);
    assert Fulfilled([x]) == (if x.Ok? then [x.value] else []) by {
      assert [x][1..] == [];
    }
  }

  /** When every lookup succeeds, nothing is dropped. */
  lemma {:induction false} AllFulfilled(results: seq<Result<Product, string>>)
    requires forall k :: 0 <= k < |results| ==> results[k].Ok?
    ensures |Fulfilled(results)| == |results|
    ensures forall k :: 0 <= k < |results| ==> Fulfilled(results)[k] == results[k].value
  {
    if results != [] {
      AllFulfilled(results[1..]);
    }
  }

  /** When every lookup fails, nothing is kept. */
  lemma {:induction false} NoneFulfilled(results: seq<Result<Product, string>>)
    requires forall k :: 0 <= k < |results| ==> results[k].Err?
    ensures Fulfilled(results) == []
  {
    if results != [] {
      NoneFulfilled(results[1..]);
    }
  }

  /** Resolving a list of ids: every id is looked up, the products found are
      kept in id order. */
  function Resolve(ids: seq<int>, lookup: int -> Result<Product, string>): (r: seq<Product>)
    ensures |r| <= |ids|
    ensures forall p :: p in r <==> exists k :: 0 <= k < |ids| && lookup(ids[k]) == Ok(p)
  {
    var outcomes := Lookups(ids, lookup);
    assert forall p :: Ok(p) in outcomes <==> exists k :: 0 <= k < |ids| && lookup(ids[k]) == Ok(p) by {
      forall p ensures Ok(p) in outcomes ==> exists k :: 0 <= k < |ids| && lookup(ids[k]) == Ok(p) {
        if Ok(p) in outcomes {
          var k :| 0 <= k < |outcomes| && outcomes[k] == Ok(p);
          assert lookup(ids[k]) == Ok(p);
        }
      }
    }
    Fulfilled(outcomes)
  }

  /** Resolving a concatenation of id lists concatenates the results. */
  lemma ResolveConcat(a: seq<int>, b: seq<int>, lookup: int -> Result<Product, string>)
    ensures Resolve(a + b, lookup) == Resolve(a, lookup) + Resolve(b, lookup)
  {
    assert Lookups(a + b, lookup) == Lookups(a, lookup) + Lookups(b, lookup);
    FulfilledConcat(Lookups(a, lookup), Lookups(b, lookup));
  }
}
