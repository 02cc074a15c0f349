# Provider aggregation pass of VRCLiveTraffic

This project models the aggregation pass of the `Providers` aggregator in
`src/providers.rs`. This is the closure that `Providers::run` hands to the job
engine. It asks every configured aircraft provider, in list order, for its
current snapshot (`get_aircraft()`). It stops at the first provider that
reports an error and returns that provider's name with the error. Otherwise it
folds every `(id, record)` pair into a map that starts empty. A record for an
id already in the map is combined over the old one (`new.combine_with(old)`).
A record for a new id is inserted as it is. The model also covers the
constructor `Providers::new`, which starts with `running == false`.

Everything is in `providers.dfy`, module `ProviderAggregation`:

- `Provider<R, E>` is a provider as one pass sees it: its name and the outcome
  of its fetch. A fetch gives a `map<AircraftId, R>` or an error `E`. The
  record type `R` and the error type `E` are type parameters.
- `AircraftData::combine_with` is a parameter `combine: (R, R) -> R`, called as
  `combine(new, old)`. Every property is therefore proved for every combine
  function: none of them assumes it is commutative or associative.
- `Aggregate` is the specification: a pure, fail-fast left fold over the
  provider sequence. `MergeInto` is its step for one provider's snapshot.
- `AggregationPass` is the closure as written: a loop over the providers with
  an early return on error. It calls `MergeSnapshot`, the inner loop over one
  snapshot, and this consumes the snapshot's pairs in an arbitrary order, the
  way a `HashMap` yields them. `PutRecord` is the remove-then-insert step for
  one pair. Each method is proved equal to the specification. For the inner
  loop, this proves that the order in which a snapshot's pairs are taken does
  not change the result.
- `AggregationPass` also returns `queried`, the number of providers whose fetch
  was called. This is how the model shows that later providers are never
  asked.
- Independent reference notions state the properties: `AllOk`, `Reports`
  (provider `j` reports id `id`), `FirstFailure`, `RecordsFor` (the records
  reported for an id, in provider order) and `FoldRecords` (their left fold,
  `combine(r_k, ... combine(r_2, r_1))`).

## Model

| member | source | states |
|---|---|---|
| `ProviderAggregation.MergeSnapshot` | src/providers.rs:37-42 | after one snapshot is folded in, the keys are the old keys plus the snapshot's keys; an id in both maps holds `combine(new, old)`; an id only in the snapshot holds the snapshot's record; an id only in the old map keeps its record; all of this for any order of the snapshot's pairs, and the result equals `MergeInto` |
| `ProviderAggregation.PutRecord` | src/providers.rs:38-41 | folding in one pair adds exactly its id; that id holds `combine(data, old)` if it was present and `data` if not; every other id is unchanged |
| `ProviderAggregation.MergeIntoStep` | src/providers.rs:37-41 | taking one more pair of a snapshot (an id not yet taken) changes the merged map exactly as one remove-then-insert step does |
| `ProviderAggregation.AggregationPass` | src/providers.rs:29-45 | the loop's outcome equals the fail-fast left fold `Aggregate` (its invariant says the map equals the fold over the providers done so far); on success it queried every provider; on failure it queried exactly the providers up to and including the first failing one, and it blames that provider's name and error |
| `ProviderAggregation.FirstFailure` | src/providers.rs:31-34 | the index that is returned is at most the list length; every provider before it succeeds; the provider at it, if there is one, fails |
| `ProviderAggregation.NoProviders` | src/providers.rs:29-45 | with no providers the pass returns `Ok` of the empty map |
| `ProviderAggregation.AggregateOkIff` | src/providers.rs:31-45 | the pass returns `Ok` if and only if every provider's fetch succeeds |
| `ProviderAggregation.FirstFailureBlamed` | src/providers.rs:31-34 | if provider `k` is the first to fail, the pass returns `Err((name_k, err_k))`, whatever the earlier providers returned; no partial map is returned |
| `ProviderAggregation.FailureBlamesFirstFailure` | src/providers.rs:31-34 | the pass fails exactly when some provider fails, and then it blames the first failing provider |
| `ProviderAggregation.LaterProvidersIgnored` | src/providers.rs:31-34 | two provider lists that agree up to and including the first failing provider give the same outcome, so providers after it play no part |
| `ProviderAggregation.MergedRecord` | src/providers.rs:37-41 | when all providers succeed, an id is in the result exactly when some provider reported it, and its record is the left fold, in provider order, of the reported records with each new record combined over the older ones |
| `ProviderAggregation.MergedKeys` | src/providers.rs:31-45 | when all providers succeed, the result's key set is the union of the providers' key sets: no id is invented and none is lost |
| `ProviderAggregation.SingleReporter` | src/providers.rs:40 | an id that exactly one provider reports keeps that provider's record, unchanged |
| `ProviderAggregation.TwoProvidersMerge` | src/providers.rs:29-45 | A gives `{X1: a}` and B gives `{X1: b1, Y2: b2}`; the result is `{X1: combine(b1, a), Y2: b2}` |
| `ProviderAggregation.SecondProviderFails` | src/providers.rs:31-34 | A succeeds and B fails with `timeout`; the result is `Err(("B", timeout))` and A's map is discarded |
| `ProviderAggregation.Providers.constructor` | src/providers.rs:17-23 | a new aggregator owns the given provider list and has `running == false` |
| `ProviderAggregation.Providers.Job` | src/providers.rs:25-28 | the job that `run` installs is one aggregation pass over the aggregator's own provider list |

## Left out

- The `Request` job engine (`Request::new`, `Request::run`, `give_job`, `get_next`) is not part of this model. It exists to run the job on a background thread and pass inputs and results through single-item slots, and its source is not available.
- `Arc<Mutex<...>>` sharing and `lock().unwrap()` are not modelled. They deal with concurrency and lock poisoning, and the pass has one thread. The pass reads the provider list as one sequence.
- `Providers::request` and `Providers::get_aircraft` are not modelled. Each is a one-line forward to the job engine.
- `Providers::run` is modelled only as the job it installs (`Providers.Job`). Starting the background thread is not modelled. The source's `run` does not set `running`: that public field is left to the caller.
- Concrete providers and their network fetches are not modelled. Each provider's fetch outcome for the pass is given as data. The internal state a fetch may change through `iter_mut()` is not modelled.
- The field-level behaviour of `AircraftData::combine_with` is not modelled, and neither is the `Error` type. Both come from modules that this model does not include, so they are a function parameter and a type parameter.
