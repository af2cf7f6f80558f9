# xeval reputation engine, modelled in Dafny

xeval is a small reputation service. Reputers submit observations
(*transactions*) about a reputee. Each observation carries a request id (`rid`),
a feature (`reach` or `clarity`) and a value in [0, 10]. The service files the
observations and reports, per reputee, three (score, confidence) pairs:

- reach: the mean of the reach values, with a confidence from a piecewise curve of their count;
- clarity: the same over the clarity values, with other curve parameters;
- clout: the two scores averaged with the confidences as weights, divided by 10.

The project models three parts:

- **`errors.dfy`, module `Errors`.** The engine's exceptions become values:
  `ReputeeNotFound`, `RidDuplicate`, and `DivisionByZero` for the float
  division that clout can attempt. An operation returns a `Result` (usable with
  `:-`) or an `Outcome`.
- **`storage.dfy`, module `Storage`.** This is the observation store of `xeval/storage.py`.
  - The abstract state is a value: a map from reputee name to `Reputee`. Per
    feature, a `Reputee` holds the list of accepted entries and the set of
    rids seen.
  - `WellFormed` is the invariant: the rid set is exactly the rids of the
    list, and those rids are distinct.
  - The specification functions are `ReputeeAfterAdd`, `StoreAfterAdd` and `StoreValues`.
  - The classes `ReputeeModel` and `SimpleStore` hold the mutable state, as
    the source's objects do. `SimpleStore` keeps a table of `ReputeeModel`
    objects, and its ghost field `Contents` is the abstract value.
  - Each method is proved to follow the specification functions.
  - `GetRepValues` copies the values into a fresh array in an index loop, as
    the source does.
  - The source's `EntryModel` is the `Entry` datatype, built by `EntryOf`.
  - The feature registry `FEATURES` is a sequence over the `Feature` datatype.
- **`algorithms.dfy`, module `Algorithms`.** These are the scoring functions of
  `xeval/algorithms.py`, over exact `real` arithmetic. The quirks of the code
  are modelled as written:
  - the sigmoid's midpoint is `a + b/2`;
  - the reach confidence of five values is −1/8, and the clarity confidence of seven values is 9/8;
  - clout divides by zero when the two confidences sum to 0.
- **`service.dfy`, module `Service`.** This is the `Reptor` class of `xeval/main.py`.
  - `Update` files an observation into the store.
  - `CalcScores` reads the clarity values, then the reach values, and scores them. It changes nothing.
  - The request schema's value bounds (a number in [0, 10], xeval/main.py:33-38)
    are the predicate `SchemaValid`, `Update`'s precondition; the schema's
    feature enumeration is the `Feature` type.
  - The end-to-end lemmas connect the store's contents to the report.

Where the code and its documentation or tests disagree, the model follows the code:

- `add_data`'s doc comment says that a duplicate rid is silently dropped. The
  code raises `RidDuplicateError`, and so does the model (`Err(RidDuplicate)`).
- `_sigmoid`'s docstring (xeval/algorithms.py:70-71) describes `a` and `b`
  as the curve's threshold and saturation points, and `clout`'s docstring
  (xeval/algorithms.py:45) calls it a normalized weighted average. In the code
  the curve does not stay between its threshold value 0 and its saturation
  value 1: both reach and clarity
  confidences leave [0, 1] (`ConfidenceLeavesUnitInterval`). Clout divides by
  zero for small counts and for five values on each side (`CloutFailsIff`).
  Clout can also be negative (`CloutCanBeNegative`).
- The reference data in `tests/test.py` agrees with the code for the reputee
  with nine values per feature. It does not agree for the other two reputees:
  - for five values per feature and for two values per feature, the code
    divides by zero, where the tests expect reports;
  - the tests expect a reach confidence of 0.875 for five values, where the code gives −0.125.

  `Service.ReferenceReports` states what the code computes.

## Model

| member | source | states |
|---|---|---|
| Storage.EmptyReputee | xeval/storage.py:80-86 | a new reputee has, for every feature of the registry, an empty entry list and an empty rid set, and is well formed |
| Storage.AppendFreshRid | xeval/storage.py:105-108 | appending an entry whose rid is not yet in the list adds exactly that rid to the list's rid set and keeps the rids distinct |
| Storage.ReputeeAfterAdd | xeval/storage.py:103-110 | adding to a well-formed reputee yields a well-formed reputee (rid set equals the list's rids, rids distinct) |
| Storage.StoreAfterAdd | xeval/storage.py:49-55 | adding to a well-formed store (creating the reputee first if its name is new) yields a well-formed store |
| Storage.EntryOf | xeval/storage.py:121-127 | the stored entry keeps every field of the observation: the observation can be recovered from it (`TransactionOf`) |
| Storage.Values | xeval/storage.py:66-70 | one value per entry, the i-th value being the i-th entry's value |
| Storage.StoreValues | xeval/storage.py:57-70 | defined exactly for a known name, not-found otherwise; one value per entry of the feature, the i-th being the i-th entry's value |
| Storage.AddEffect | xeval/storage.py:49-55 | an add succeeds exactly when the reputee is new or the rid is new for its feature. On success the store gains the name, every other reputee is unchanged, the feature's list gains the entry at its end (length plus one) and its rid set gains the rid, and the other feature is unchanged (empty for a new reputee) |
| Storage.DuplicateRejected | xeval/storage.py:105-110 | an add fails exactly when the reputee exists and the rid is among the rids of that feature's entries, and the failure is the duplicate error |
| Storage.ResubmissionRejected | xeval/storage.py:105-110 | after an accepted add, a second add with the same reputee, feature and rid fails with the duplicate error, whatever its value |
| Storage.DedupScopedPerFeature | xeval/storage.py:83-86 | deduplication is per (reputee, feature): accepting one observation does not change whether an observation for another reputee or another feature is accepted, whatever its rid |
| Storage.UnknownReputeeNotFound | xeval/storage.py:34-37 | reading the values of a name never added fails with not-found |
| Storage.AddAppendsValue | xeval/storage.py:103-108 | after an accepted add, the values of the reputee's feature are the earlier values (none for a new reputee) followed by the new value, and the other feature's values are unchanged (empty for a new reputee) |
| Storage.ReputeeModel.constructor | xeval/storage.py:80-86 | the loop over the registry leaves the model with the given name and in the empty, well-formed state |
| Storage.ReputeeModel.AddData | xeval/storage.py:91-110 | keeps the invariant. The outcome is that of `ReputeeAfterAdd`, the new state is its result on success, and the state is unchanged on a duplicate rid |
| Storage.SimpleStore.constructor | xeval/storage.py:25-26 | the store starts empty and valid |
| Storage.SimpleStore.GetReputee | xeval/storage.py:28-38 | succeeds exactly for a known name, returning the very model filed under that name, whose state is that name's contents. Otherwise it fails with not-found. It modifies nothing, so nothing is created |
| Storage.SimpleStore.AddTransaction | xeval/storage.py:40-55 | keeps the invariant (one model per name, filed under its own name). The outcome and the new contents are those of `StoreAfterAdd`. On a duplicate the store is unchanged. Every name keeps the model object it had, and a model not filed before is freshly allocated |
| Storage.SimpleStore.GetRepValues | xeval/storage.py:57-70 | the result is the stored values of the feature, in insertion order (`StoreValues`), or not-found for an unknown name. It modifies nothing |
| Algorithms.Sigmoid | xeval/algorithms.py:68-87 | 0 whenever x ≤ a, and 1 whenever x ≥ b provided a < b and the midpoint a + b/2 does not exceed b |
| Algorithms.SumBounds | xeval/algorithms.py:21 | the sum of n values in [0, 10] lies in [0, 10n] |
| Algorithms.Mean | xeval/algorithms.py:21 | the mean times the number of values is their sum |
| Algorithms.Reach | xeval/algorithms.py:13-25 | (0, 0) for no values; otherwise the score times the count is the sum (the mean). The confidence depends only on the count: 0, 1/8, 1/2, −1/8, 1 for ≤2, 3, 4, 5, ≥6 values |
| Algorithms.Clarity | xeval/algorithms.py:28-40 | (0, 0) for no values; otherwise the score times the count is the sum (the mean). The confidence depends only on the count: 0, 1/8, 1/2, 9/8, 1 for ≤4, 5, 6, 7, ≥8 values |
| Algorithms.Clout | xeval/algorithms.py:43-65 | (0, 0) when either side is empty. Otherwise it fails, with a division by zero, exactly when the two confidences sum to 0; when defined, its confidence is the smaller confidence and ten times its score, times the confidence total, is the confidence-weighted sum of the two scores |
| Algorithms.ConfidenceLeavesUnitInterval | xeval/algorithms.py:79-85 | five reach values give confidence −1/8 and seven clarity values give 9/8: neither stays in [0, 1] |
| Algorithms.SigmoidNotMonotone | xeval/algorithms.py:79-85 | with reach's parameters the curve drops from 1/2 at 4 to −1/8 at 5 |
| Algorithms.SigmoidOvershoot | xeval/algorithms.py:79-83 | when the midpoint lies beyond b, the rising branch exceeds 1 past b: Sigmoid(7, 5, 6) = 8 |
| Algorithms.MeanInRange | xeval/algorithms.py:21 | the mean of values in [0, 10] lies in [0, 10] |
| Algorithms.ScoresInRange | xeval/algorithms.py:20-40 | reach and clarity scores of values in [0, 10] lie in [0, 10]; both functions give (0, 0) for no values |
| Algorithms.SumPermutation | xeval/algorithms.py:21 | the sum depends only on the multiset of values |
| Algorithms.ScoresOrderIndependent | xeval/algorithms.py:20-40 | reach and clarity depend only on the multiset of values, not on their order |
| Algorithms.CloutFailsIff | xeval/algorithms.py:52-65 | clout is (0, 0) when either side is empty. It fails, with a division by zero, exactly when both sides are non-empty and either reach has at most 2 and clarity at most 4 values, or both have 5 |
| Algorithms.CloutIsWeightedAverage | xeval/algorithms.py:55-63 | unless reach has five values, a defined clout is a true weighted average: ten times its score lies between the reach and clarity scores, and its confidence is the smaller of theirs |
| Algorithms.CloutScoreInUnitRange | xeval/algorithms.py:55-61 | with values in [0, 10] and reach not at five values, a defined clout score lies in [0, 1] |
| Algorithms.CloutCanBeNegative | xeval/algorithms.py:58-63 | six clarity values of 0 and five reach values of 10 give clout (−1/3, −1/8) |
| Service.ScoresFor | xeval/main.py:105-120 | not-found exactly for an unknown name; a report's reach and clarity confidences follow the count tables of the stored reach and clarity values |
| Service.ScoresForFailsIff | xeval/main.py:105-110 | a report fails with not-found exactly for an unknown name, and with a division by zero exactly for a known reputee whose counts make the confidences cancel; it fails in no other way |
| Service.StoredScoresInRange | xeval/main.py:105-110 | for a store within the schema, a report's reach and clarity scores lie in [0, 10] and its confidences follow the count tables. Unless exactly five reach values are stored, its clout score lies in [0, 1] |
| Service.UpdateKeepsSchema | xeval/main.py:33-38 | filing an observation that passed the value bounds keeps every stored value in [0, 10] |
| Service.UpdateMakesKnown | xeval/main.py:124-134 | after an accepted observation, the report for its reputee no longer fails with not-found. It fails exactly when the counts after the add make the confidences cancel |
| Service.FirstObservation | xeval/main.py:105-120 | the first observation of a new reputee is accepted. The report then has the value as its feature's score at confidence 0, (0, 0) for the other feature, and clout (0, 0) |
| Service.ReferenceReports | tests/test.py:18-22 | the data of tests/test.py:18-22 evaluated with the model's functions. Nine values give reach and clarity (38.3/9, 1) and clout (38.3/90, 1), as tests/test.py:74-78 expects. Five values give reach (30.3/5, −1/8) and clarity (30.3/5, 1/8): the scores and the clarity confidence agree with tests/test.py:84-88, the reach confidence does not, and the clout divides by zero. Two values give reach and clarity (2, 0), as tests/test.py:79-83 expects, and the clout divides by zero |
| Service.Reptor.constructor | xeval/main.py:87-88 | the service starts with a fresh, empty store |
| Service.Reptor.CalcScores | xeval/main.py:90-122 | the result is `ScoresFor` of the contents: clarity values then reach values, not-found exactly for an unknown name, reach/clarity/clout of the stored values with clarity as clout's first argument. Reach and clarity scores lie in [0, 10]. It modifies nothing |
| Service.Reptor.Update | xeval/main.py:124-134 | for a value within the schema, the outcome and the new contents are exactly those of the store's add. The duplicate error passes through with the store unchanged, and every stored value stays in [0, 10]. The table keeps every earlier model object, and any model it gains is freshly allocated, so the service can be called again |
| Service.SubmitTwice | xeval/main.py:124-134 | a client of a fresh service: the first submission of an observation is accepted, the report then shows it as the reputee's first value (score v at confidence 0, clout (0, 0)), and submitting the same observation again is rejected as a duplicate |

## Left out

- HTTP and process plumbing are not modelled: the falcon resource, the JSON
  middleware, argparse, the wsgiref server and `main()`. The request schema
  survives only as `Update`'s precondition and the `Feature` type.
- Floating point and numpy become exact `real` arithmetic. Rounding, and the
  numpy array that `get_rep_values` returns, are not modelled; the values are
  a `seq<real>` copied out of an array.
- A feature name outside the registry cannot be expressed, since features are
  a datatype. The KeyError the source would raise is therefore not modelled;
  the schema excludes such names anyway.
- Requests with missing fields are not modelled: every field of `Transaction`
  is present. The request schema lists no required fields, so such a request
  reaches `update`, and the source then fails partway. Without `repute`, `rid`
  or `feature` the new reputee is filed before `add_data` raises KeyError, so
  the name stays known. Without `reputer` or `value` the rid is recorded before
  `EntryModel` raises, which leaves a rid with no entry (breaking `WellFormed`)
  and rejects a later complete request with that rid as a duplicate. A NaN
  value, which the JSON parser accepts and the schema's bounds let through, is
  not modelled either, since values are exact reals.
- `filter_entries` is an empty stub, and the cached-reputation fields are
  commented out. Neither is modelled.
- Exceptions are values (`Result`, `Outcome`). The schema's rejection of bad
  requests (HTTP 400) happens before `update` and is only a precondition here.
- The source has no concurrency, so none is modelled.
- Algorithms.Sigmoid: requires a ≠ b. The only other division by zero, a = b,
  never occurs, since the code calls it with (2, 6) and (4, 8) only.
- Algorithms.Sigmoid: the promised saturation (1 for x ≥ b) is stated only
  when a < b and a + b/2 ≤ b. It does not hold otherwise (`SigmoidOvershoot`).
- Algorithms.CloutIsWeightedAverage: requires a reach count other than 5,
  because at 5 the reach confidence is negative and the weights leave [0, 1]
  (`CloutCanBeNegative`). The same holds for `CloutScoreInUnitRange` and for the
  clout bound in `Service.StoredScoresInRange`.
- Service.Reptor.CalcScores: its contract bounds only the reach and clarity
  scores. The confidence tables and the clout bound are in
  `Service.StoredScoresInRange`, which applies to its result.
