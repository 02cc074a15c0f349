/**
  The provider aggregator of a live-traffic feed: one aggregation pass queries
  every configured provider in order, fails fast on the first provider error
  and otherwise merges the per-aircraft records of all providers into one map,
  combining a record that several providers report "new over old".

  The record type `R` and the provider error type `E` are left abstract, and the
  record combination (`AircraftData::combine_with`, `new.combine_with(old)`) is a
  parameter `combine: (R, R) -> R`, so nothing below assumes that it is
  commutative or associative.
 */
module ProviderAggregation {

  /** Identifier of one aircraft (e.g. a transponder code). */
  type AircraftId = string

  /** A success value or an error value. */
  datatype Result<+T, +Err> = Ok(value: T) | Err(error: Err)

  /** The failure of a pass: the name of the provider to blame and its error. */
  datatype Blame<+E> = Blame(provider: string, error: E)

  /**
    One configured provider, as seen by one pass: its name and the outcome of
    its `get_aircraft()` call (a snapshot of records by aircraft id, or an error).
   */
  datatype Provider<R, E> = Provider(name: string, fetch: Result<map<AircraftId, R>, E>)

  // ---------------------------------------------------------------------------
  // Specification: the pass as a pure fail-fast left fold
  // ---------------------------------------------------------------------------

  /**
    The accumulated map after one provider's snapshot `m` has been folded into
    `acc`: an id that is already present gets `combine(new, old)`, an id that is
    not is inserted as it is, and every other id keeps its record.
   */
  function MergeInto<R>(acc: map<AircraftId, R>, m: map<AircraftId, R>, combine: (R, R) -> R): map<AircraftId, R>
  {
    acc + map id | id in m :: if id in acc then combine(m[id], acc[id]) else m[id]
  }

  /**
    The outcome of a pass over the providers `ps`, as a left fold over the
    sequence: the first failing provider is blamed; otherwise each provider's
    snapshot is merged into the map built from the providers before it.
   */
  function Aggregate<R, E>(ps: seq<Provider<R, E>>, combine: (R, R) -> R): Result<map<AircraftId, R>, Blame<E>>
  {
    if ps == [] then Ok(map[])
    else
      match Aggregate(ps[..|ps| - 1], combine)
      case Err(b) => Err(b)
      case Ok(acc) =>
        var p := ps[|ps| - 1];
        match p.fetch
        case Err(e) => Err(Blame(p.name, e))
        case Ok(m) => Ok(MergeInto(acc, m, combine))
  }

  // ---------------------------------------------------------------------------
  // Independent reference notions
  // ---------------------------------------------------------------------------

  /** Every provider in `ps` returns a snapshot. */
  predicate AllOk<R, E>(ps: seq<Provider<R, E>>)
  {
    forall j :: 0 <= j < |ps| ==> ps[j].fetch.Ok?
  }

  /** Provider `j` returns a snapshot that holds a record for `id`. */
  predicate Reports<R, E>(ps: seq<Provider<R, E>>, j: int, id: AircraftId)
  {
    0 <= j < |ps| && ps[j].fetch.Ok? && id in ps[j].fetch.value
  }

  /**
    The index of the first provider that fails, or `|ps|` when none does.
   */
  function FirstFailure<R, E>(ps: seq<Provider<R, E>>): (k: nat)
    ensures k <= |ps|
    ensures forall j :: 0 <= j < k ==> ps[j].fetch.Ok?
    ensures k < |ps| ==> ps[k].fetch.Err?
  {
    if ps == [] || ps[0].fetch.Err? then 0 else 1 + FirstFailure(ps[1..])
  }

  /** The records reported for `id`, in provider order. */
  function RecordsFor<R, E>(ps: seq<Provider<R, E>>, id: AircraftId): seq<R>
  {
    if ps == [] then []
    else
      var p := ps[|ps| - 1];
      RecordsFor(ps[..|ps| - 1], id) +
        (if p.fetch.Ok? && id in p.fetch.value then [p.fetch.value[id]] else [])
  }

  /**
    The left fold of a non-empty sequence of records in which each later record
    is combined over the accumulated earlier ones:
    `combine(r_k, ... combine(r_2, r_1))`.
   */
  function FoldRecords<R>(rs: seq<R>, combine: (R, R) -> R): R
    requires rs != []
  {
    if |rs| == 1 then rs[0] else combine(rs[|rs| - 1], FoldRecords(rs[..|rs| - 1], combine))
  }

  // ---------------------------------------------------------------------------
  // The pass, as the closure runs it
  // ---------------------------------------------------------------------------

  /**
    Folds one provider's snapshot into the running map, one (id, record) pair at
    a time: a present id is removed and re-inserted with `combine(new, old)`, a
    new id is inserted as it is. The pairs are taken in an arbitrary order, as a
    hash map yields them; the result does not depend on that order.
   */
  method MergeSnapshot<R>(acc: map<AircraftId, R>, m: map<AircraftId, R>, combine: (R, R) -> R)
    returns (merged: map<AircraftId, R>)
    ensures merged.Keys == acc.Keys + m.Keys
    ensures forall id :: id in m && id in acc ==> merged[id] == combine(m[id], acc[id])
    ensures forall id :: id in m && id !in acc ==> merged[id] == m[id]
    ensures forall id :: id in acc && id !in m ==> merged[id] == acc[id]
    ensures merged == MergeInto(acc, m, combine)
  {
    merged := acc;
    var rest := m;
    ghost var seen: map<AircraftId, R> := map[];
    while rest.Keys != {}
      invariant seen.Keys !! rest.Keys && seen.Keys + rest.Keys == m.Keys
      invariant forall k :: k in seen ==> seen[k] == m[k]
      invariant forall k :: k in rest ==> rest[k] == m[k]
      invariant merged == MergeInto(acc, seen, combine)
      decreases rest.Keys
    {
      var id :| id in rest.Keys;
      var data := rest[id];
      MergeIntoStep(acc, seen, id, data, combine);
      merged := PutRecord(merged, id, data, combine);
      rest := rest - {id};
      seen := seen[id := data];
    }
    assert seen == m;
  }

  /** The map after one (id, record) pair has been folded into `cur`. */
  function Put<R>(cur: map<AircraftId, R>, id: AircraftId, data: R, combine: (R, R) -> R): map<AircraftId, R>
  {
    if id in cur then cur[id := combine(data, cur[id])] else cur[id := data]
  }

  /**
    Folds one (id, record) pair into `cur`: a present record is removed and the
    new record combined over it is inserted; otherwise the record is inserted.
   */
  method PutRecord<R>(cur: map<AircraftId, R>, id: AircraftId, data: R, combine: (R, R) -> R)
    returns (next: map<AircraftId, R>)
    ensures next.Keys == cur.Keys + {id}
    ensures next[id] == if id in cur then combine(data, cur[id]) else data
    ensures forall k :: k in cur && k != id ==> next[k] == cur[k]
    ensures next == Put(cur, id, data, combine)
  {
    next := cur;
    if id in next {
      var e := next[id];
      next := next - {id};
      next := next[id := combine(data, e)];
    } else {
      next := next[id := data];
    }
  }

  /** Folding in one more pair of a snapshot is one `Put`. */
  lemma MergeIntoStep<R>(acc: map<AircraftId, R>, seen: map<AircraftId, R>, id: AircraftId, data: R, combine: (R, R) -> R)
    requires id !in seen
    ensures MergeInto(acc, seen[id := data], combine) == Put(MergeInto(acc, seen, combine), id, data, combine)
  {
    var cur := MergeInto(acc, seen, combine);
    var next := MergeInto(acc, seen[id := data], combine);
    var want := Put(cur, id, data, combine);
    assert next.Keys == want.Keys;
    forall k | k in next ensures next[k] == want[k] {
    }
  }

  /**
    One aggregation pass over `ps`. Returns the outcome and the number of
    providers whose `get_aircraft()` was called.
   */
  method AggregationPass<R, E>(ps: seq<Provider<R, E>>, combine: (R, R) -> R)
    returns (res: Result<map<AircraftId, R>, Blame<E>>, queried: nat)
    ensures res == Aggregate(ps, combine)
    ensures res.Ok? ==> queried == |ps|
    ensures res.Err? ==> queried == FirstFailure(ps) + 1 <= |ps|
    ensures res.Err? ==> res.error == Blame(ps[queried - 1].name, ps[queried - 1].fetch.error)
  {
    var aircraftMap: map<AircraftId, R> := map[];
    var i := 0;
    while i < |ps|
      invariant 0 <= i <= |ps|
      invariant forall j :: 0 <= j < i ==> ps[j].fetch.Ok?
      invariant Aggregate(ps[..i], combine) == Ok(aircraftMap)
    {
      var provider := ps[i];
      assert ps[..i + 1][..i] == ps[..i];
      match provider.fetch {
        case Err(e) =>
          res, queried := Err(Blame(provider.name, e)), i + 1;
          FirstFailureBlamed(ps, i, combine);
          return;
        case Ok(m) =>
          aircraftMap := MergeSnapshot(aircraftMap, m, combine);
      }
      i := i + 1;
    }
    assert ps[..i] == ps;
    res, queried := Ok(aircraftMap), |ps|;
  }

  /**
    The aggregator object: the provider list it owns and a public flag, which
    its caller sets, telling whether the background job has been started.
   */
  class Providers<R, E> {
    var running: bool
    var providers: seq<Provider<R, E>>
    const combine: (R, R) -> R

    /** A fresh aggregator owns `providers` and is not running. */
    constructor (providers: seq<Provider<R, E>>, combine: (R, R) -> R)
      ensures !running
      ensures this.providers == providers && this.combine == combine
    {
      running := false;
      this.providers := providers;
      this.combine := combine;
    }

    /** The job installed by `run`: one aggregation pass over the owned providers. */
    method Job() returns (res: Result<map<AircraftId, R>, Blame<E>>)
      ensures res == Aggregate(providers, combine)
    {
      var queried;
      res, queried := AggregationPass(providers, combine);
    }
  }

  // ---------------------------------------------------------------------------
  // Properties of the pass
  // ---------------------------------------------------------------------------

  /** With no providers the pass yields an empty map. */
  lemma NoProviders<R, E>(combine: (R, R) -> R)
    ensures Aggregate<R, E>([], combine) == Ok(map[])
  {
  }

  /** The pass succeeds exactly when every provider succeeds. */
  lemma {:induction false} AggregateOkIff<R, E>(ps: seq<Provider<R, E>>, combine: (R, R) -> R)
    ensures Aggregate(ps, combine).Ok? <==> AllOk(ps)
  {
    if ps != [] {
      var init := ps[..|ps| - 1];
      AggregateOkIff(init, combine);
      assert AllOk(ps) <==> AllOk(init) && ps[|ps| - 1].fetch.Ok?;
    }
  }

  /**
    If provider `k` is the first to fail, the pass fails naming exactly that
    provider and its error, whatever the providers before it returned.
   */
  lemma {:induction false} FirstFailureBlamed<R, E>(ps: seq<Provider<R, E>>, k: nat, combine: (R, R) -> R)
    requires k < |ps| && ps[k].fetch.Err?
    requires forall j :: 0 <= j < k ==> ps[j].fetch.Ok?
    ensures Aggregate(ps, combine) == Err(Blame(ps[k].name, ps[k].fetch.error))
  {
    var init := ps[..|ps| - 1];
    if |ps| == k + 1 {
      AggregateOkIff(init, combine);
    } else {
      FirstFailureBlamed(init, k, combine);
    }
  }

  /** Every failing pass blames its first failing provider. */
  lemma FailureBlamesFirstFailure<R, E>(ps: seq<Provider<R, E>>, combine: (R, R) -> R)
    ensures Aggregate(ps, combine).Err? <==> FirstFailure(ps) < |ps|
    ensures Aggregate(ps, combine).Err? ==>
      var k := FirstFailure(ps); Aggregate(ps, combine).error == Blame(ps[k].name, ps[k].fetch.error)
  {
    var k := FirstFailure(ps);
    if k < |ps| {
      FirstFailureBlamed(ps, k, combine);
    } else {
      AggregateOkIff(ps, combine);
    }
  }

  /**
    Providers after the first failing one play no part: any provider list that
    agrees up to and including that provider gives the same outcome.
   */
  lemma LaterProvidersIgnored<R, E>(ps: seq<Provider<R, E>>, qs: seq<Provider<R, E>>, k: nat, combine: (R, R) -> R)
    requires k < |ps| && k < |qs| && ps[..k + 1] == qs[..k + 1]
    requires ps[k].fetch.Err? && forall j :: 0 <= j < k ==> ps[j].fetch.Ok?
    ensures Aggregate(qs, combine) == Aggregate(ps, combine)
  {
    assert forall j :: 0 <= j <= k ==> qs[j] == qs[..k + 1][j] == ps[..k + 1][j] == ps[j];
    FirstFailureBlamed(ps, k, combine);
    FirstFailureBlamed(qs, k, combine);
  }

  /**
    When every provider succeeds, an id is in the merged map exactly when some
    provider reports it, and its record is the left fold, in provider order, of
    the records reported for it.
   */
  lemma {:induction false} MergedRecord<R, E>(ps: seq<Provider<R, E>>, id: AircraftId, combine: (R, R) -> R)
    requires AllOk(ps)
    ensures Aggregate(ps, combine).Ok?
    ensures id in Aggregate(ps, combine).value <==> RecordsFor(ps, id) != []
    ensures id in Aggregate(ps, combine).value ==>
      Aggregate(ps, combine).value[id] == FoldRecords(RecordsFor(ps, id), combine)
  {
    if ps != [] {
      var init := ps[..|ps| - 1];
      assert AllOk(init) by {
        forall j | 0 <= j < |init| ensures init[j].fetch.Ok? { assert init[j] == ps[j]; }
      }
      MergedRecord(init, id, combine);
      var acc := Aggregate(init, combine).value;
      var rs := RecordsFor(init, id);
      var m := ps[|ps| - 1].fetch.value;
      assert Aggregate(ps, combine) == Ok(MergeInto(acc, m, combine));
      if id in m {
        var rs' := RecordsFor(ps, id);
        assert rs' == rs + [m[id]];
        if rs != [] {
          assert rs'[..|rs'| - 1] == rs;
          assert FoldRecords(rs', combine) == combine(m[id], FoldRecords(rs, combine));
        }
      } else {
        assert RecordsFor(ps, id) == rs;
      }
    }
  }

  /** Provider `j` reports `id` exactly when its record is one of `RecordsFor(ps, id)`. */
  lemma {:induction false} RecordsForReports<R, E>(ps: seq<Provider<R, E>>, id: AircraftId)
    ensures RecordsFor(ps, id) != [] <==> exists j :: Reports(ps, j, id)
  {
    if ps != [] {
      var init := ps[..|ps| - 1];
      var last := |ps| - 1;
      RecordsForReports(init, id);
      forall j | 0 <= j < last ensures Reports(init, j, id) <==> Reports(ps, j, id) {
        assert init[j] == ps[j];
      }
      if Reports(ps, last, id) {
        assert RecordsFor(ps, id) == RecordsFor(init, id) + [ps[last].fetch.value[id]];
      } else {
        assert RecordsFor(ps, id) == RecordsFor(init, id);
        assert forall j :: Reports(ps, j, id) ==> Reports(init, j, id);
      }
    }
  }

  /**
    When every provider succeeds, the key set of the merged map is the union of
    the providers' key sets: no id is invented and none is lost.
   */
  lemma MergedKeys<R, E>(ps: seq<Provider<R, E>>, combine: (R, R) -> R)
    requires AllOk(ps)
    ensures Aggregate(ps, combine).Ok?
    ensures forall id :: id in Aggregate(ps, combine).value <==> exists j :: Reports(ps, j, id)
  {
    AggregateOkIff(ps, combine);
    forall id ensures id in Aggregate(ps, combine).value <==> exists j :: Reports(ps, j, id) {
      MergedRecord(ps, id, combine);
      RecordsForReports(ps, id);
    }
  }

  /** If provider `j` is the only one reporting `id`, `RecordsFor` holds just its record. */
  lemma {:induction false} RecordsForSingle<R, E>(ps: seq<Provider<R, E>>, j: nat, id: AircraftId)
    requires Reports(ps, j, id)
    requires forall i :: 0 <= i < |ps| && i != j ==> !Reports(ps, i, id)
    ensures RecordsFor(ps, id) == [ps[j].fetch.value[id]]
  {
    var init := ps[..|ps| - 1];
    if j == |ps| - 1 {
      forall i | 0 <= i < |init| ensures !Reports(init, i, id) {
        assert init[i] == ps[i];
        assert !Reports(ps, i, id);
      }
      RecordsForReports(init, id);
    } else {
      assert Reports(init, j, id);
      forall i | 0 <= i < |init| && i != j ensures !Reports(init, i, id) {
        assert !Reports(ps, i, id);
      }
      RecordsForSingle(init, j, id);
      assert !Reports(ps, |ps| - 1, id);
    }
  }

  /**
    An id reported by exactly one provider keeps that provider's record,
    unchanged.
   */
  lemma SingleReporter<R, E>(ps: seq<Provider<R, E>>, j: nat, id: AircraftId, combine: (R, R) -> R)
    requires AllOk(ps) && Reports(ps, j, id)
    requires forall i :: 0 <= i < |ps| && i != j ==> !Reports(ps, i, id)
    ensures Aggregate(ps, combine).Ok?
    ensures id in Aggregate(ps, combine).value
    ensures Aggregate(ps, combine).value[id] == ps[j].fetch.value[id]
  {
    RecordsForSingle(ps, j, id);
    MergedRecord(ps, id, combine);
  }

  /**
    Two providers: A reports X1, B reports X1 and Y2. X1 gets B's record
    combined over A's, Y2 keeps B's record.
   */
  lemma TwoProvidersMerge<R, E>(a1: R, b1: R, b2: R, combine: (R, R) -> R)
    ensures Aggregate<R, E>([Provider("A", Ok(map["X1" := a1])),
                             Provider("B", Ok(map["X1" := b1, "Y2" := b2]))], combine)
      == Ok(map["X1" := combine(b1, a1), "Y2" := b2])
  {
    var ps: seq<Provider<R, E>> := [Provider("A", Ok(map["X1" := a1])),
                                    Provider("B", Ok(map["X1" := b1, "Y2" := b2]))];
    var a := map["X1" := a1];
    var b := map["X1" := b1, "Y2" := b2];
    assert ps[..1] == [ps[0]] && [ps[0]][..0] == [];
    assert MergeInto(map[], a, combine) == a;
    assert Aggregate(ps[..1], combine) == Ok(a);
    var merged := MergeInto(a, b, combine);
    assert Aggregate(ps, combine) == Ok(merged);
    assert merged.Keys == {"X1", "Y2"};
    assert merged == map["X1" := combine(b1, a1), "Y2" := b2];
  }

  /**
    A succeeds, B fails: the pass fails blaming B with B's error, and A's map is
    not returned.
   */
  lemma SecondProviderFails<R, E>(a1: R, timeout: E, combine: (R, R) -> R)
    ensures Aggregate<R, E>([Provider("A", Ok(map["X1" := a1])), Provider("B", Err(timeout))], combine)
      == Err(Blame("B", timeout))
  {
    var ps: seq<Provider<R, E>> := [Provider("A", Ok(map["X1" := a1])), Provider("B", Err(timeout))];
    FirstFailureBlamed(ps, 1, combine);
  }
}
