# Ratekeeper interface: commit-cost estimates and coordinator identity

This project models the behaviour declared in FoundationDB's
`fdbserver/RatekeeperInterface.h`, the contract between the Ratekeeper (the
cluster's admission-rate coordinator) and its clients:

- `TransactionCommitCostEstimation`, the per-(storage server, tag) cost record
  carried by `ReportCommitCostEstimationRequest`.
  It holds `opsSum` (a C++ `int`) and `costSum` (a `uint64_t`), both zero by
  default, and merges another record into itself with `operator+=`.
- The identity of a `RatekeeperInterface`: the constructor that stores a
  locality and a `UID`, `id()`, and `operator==` / `operator!=`, which compare
  identifiers only.
- The `file_identifier` schema tags of the message types in the header.

Files:

- `fixed_width.dfy` (module `FixedWidth`): `int32`, `uint32`, `uint64` and
  `uint64_t` addition, which wraps modulo 2^64.
- `uid.dfy` (module `Uid`): `UID` as a value of two 64-bit halves.
- `commit_cost.dfy` (module `CommitCost`): the class
  `TransactionCommitCostEstimation` with `MergeFrom` (`operator+=`, modifying
  the record in place and returning it), its value `Estimate` with the pure
  `Merge`, folding a sequence of reports, and the lemmas about both.
- `ratekeeper_interface.dfy` (module `RatekeeperIdentity`): the interface as a
  value of its locality and identifier, with `Create`, `Id`, `Equals` and
  `NotEquals`.
- `file_identifiers.dfy` (module `FileIdentifiers`): the schema tags, and
  `KindOf`, the same table read from tag to message type.

Fixed widths. `opsSum += other.opsSum` is signed `int` arithmetic, whose
overflow is undefined behaviour in C++; every merge therefore requires the sum
to stay within the 32-bit range (`CanMerge`, and `NoOverflow` for every prefix
of a fold). `costSum += other.costSum` is unsigned and wraps; it is modelled
exactly, modulo 2^64, and needs no precondition.

The header declares `opsSum` as a signed `int`, so the model admits negative
operation counts. Non-negativity is assumed only in `NonNegativeFoldDefined`.

## Model

| member | source | states |
|---|---|---|
| `CommitCost.TransactionCommitCostEstimation.constructor` | fdbserver/RatekeeperInterface.h:62-64 | a default-constructed record holds `opsSum = 0` and `costSum = 0` |
| `CommitCost.TransactionCommitCostEstimation.GetCostSum` | fdbserver/RatekeeperInterface.h:66 | returns the stored `costSum` and reads nothing but the record |
| `CommitCost.TransactionCommitCostEstimation.GetOpsSum` | fdbserver/RatekeeperInterface.h:67 | returns the stored `opsSum` and reads nothing but the record |
| `CommitCost.TransactionCommitCostEstimation.MergeFrom` | fdbserver/RatekeeperInterface.h:74-78 | after `a += b` the record's value is the merge of the old values of `a` and `b` (each field added, cost modulo 2^64), the result is `a` itself, `b` is unchanged when it is a different record, and `a += a` doubles `a` |
| `FixedWidth.AddUint64` | fdbserver/RatekeeperInterface.h:64-76 | unsigned 64-bit addition wraps at most once: the result is the true sum, or the true sum minus 2^64 exactly when the true sum reaches 2^64 |
| `CommitCost.Merge` | fdbserver/RatekeeperInterface.h:74-78 | the merged value exceeds the left operand by exactly the right operand's operation count, and by the right operand's cost modulo 2^64 |
| `CommitCost.ZeroIsIdentity` | fdbserver/RatekeeperInterface.h:63-78 | merging a default estimate into any estimate, or any estimate into a default one, yields that estimate |
| `CommitCost.MergeCommutes` | fdbserver/RatekeeperInterface.h:74-78 | `a += b` and `b += a` produce the same value |
| `CommitCost.MergeAssociates` | fdbserver/RatekeeperInterface.h:74-78 | `(a + b) + c == a + (b + c)` whenever the partial operation counts fit in an `int` |
| `CommitCost.SelfMergeDoubles` | fdbserver/RatekeeperInterface.h:74-78 | `a += a` doubles both fields (cost modulo 2^64) and leaves `a` unchanged if and only if `a` is zero |
| `CommitCost.RemergeCountsTwice` | fdbserver/RatekeeperInterface.h:74-78 | merging the same report into an accumulator twice adds it twice, and the second merge is a no-op if and only if the report is zero: the merge is not idempotent |
| `CommitCost.Fold` | fdbserver/RatekeeperInterface.h:63-78 | starting from a default record and applying `+=` for each report in order gives the field-wise sum of the reports, the cost reduced modulo 2^64 |
| `CommitCost.TotalPermutation` | fdbserver/RatekeeperInterface.h:74-78 | the field-wise totals of a sequence of reports depend only on which reports there are, not their order |
| `CommitCost.FoldPermutation` | fdbserver/RatekeeperInterface.h:74-78 | folding the same reports in any two orders that do not overflow gives the same record |
| `CommitCost.FoldConcat` | fdbserver/RatekeeperInterface.h:74-78 | when folding the concatenation `s + t` and folding `t` alone both stay in range, folding `s` does too, the two folds can be merged, and merging them equals folding `s + t` |
| `CommitCost.NonNegativeFoldDefined` | fdbserver/RatekeeperInterface.h:63-75 | when all operation counts are non-negative, no intermediate sum of the fold overflows as long as the grand total fits in an `int` |
| `RatekeeperIdentity.Create` | fdbserver/RatekeeperInterface.h:41 | an interface constructed from `(l, id)` stores identifier `id` and locality `l` |
| `RatekeeperIdentity.Id` | fdbserver/RatekeeperInterface.h:44 | `id()` returns the stored identifier: constructing from the interface's locality and `id()` gives back the same interface |
| `RatekeeperIdentity.Equals` | fdbserver/RatekeeperInterface.h:46 | `==` holds exactly when the two interfaces agree once locality is disregarded, and identical interfaces are `==` |
| `RatekeeperIdentity.NotEquals` | fdbserver/RatekeeperInterface.h:47 | `!=` holds exactly when the interfaces differ even with locality disregarded, and `!=` interfaces are distinct values |
| `RatekeeperIdentity.EqualsIgnoresLocality` | fdbserver/RatekeeperInterface.h:41-46 | two interfaces constructed with the same identifier are `==` whatever their localities |
| `RatekeeperIdentity.DistinctIdsAreDistinguished` | fdbserver/RatekeeperInterface.h:41-47 | two constructed interfaces, at any localities, are `!=` exactly when their identifiers differ, so a replaced coordinator is detected |
| `RatekeeperIdentity.EqualsIsEquivalence` | fdbserver/RatekeeperInterface.h:46 | `==` is reflexive, symmetric and transitive |
| `RatekeeperIdentity.NotEqualsIsNegation` | fdbserver/RatekeeperInterface.h:47 | `!=` holds exactly when the identifiers differ, is irreflexive and is symmetric |
| `FileIdentifiers.FileIdentifier` | fdbserver/RatekeeperInterface.h:30-197 | each message type's declared `file_identifier` constant, which the reverse table maps back to that message type |
| `FileIdentifiers.FileIdentifiersDistinct` | fdbserver/RatekeeperInterface.h:29-197 | the message types' `file_identifier` constants are pairwise distinct, so each tag names one message type |

## Left out

- Serialization (`serialize` templates and `serializer` calls): they belong to the transport layer, whose code is not part of this model.
- The request streams, reply promises, `initEndpoints()` and `address()`: these are network endpoint types defined elsewhere; interface equality does not depend on them.
- The default constructor `RatekeeperInterface()`: it leaves the identifier at `UID`'s own default, and `UID`'s source is not part of this model.
- `GetRateInfoReply`: its rates and lease duration are floating point and nothing in the header sets or checks them; `HealthMetrics` and the throttled-tag map types are defined elsewhere.
- `GetRateInfoRequest` and `HaltRatekeeperRequest`: plain data holders with constructors that only store their arguments; the lease, halt and counter logic that consumes them lives in the Ratekeeper actor, which is not part of this model.
- `MutationAndVersion`, `BlobGranuleChunk`, `BlobGranuleFileReply`, `BlobGranuleFileRequest`: a deprecated side channel built on arena-allocated types defined elsewhere; only their schema tags are modelled.
- `ReportCommitCostEstimationRequest`: its payload is a map from storage-server `UID` to per-tag estimates whose map types are defined in other headers; who fills it, who sends it and how the Ratekeeper merges received reports is code outside this header. Only the estimate it carries and the merge of estimates are modelled.
- `LocalityData` and `UID` are modelled as plain values (a map of byte strings, and two 64-bit halves); their own behaviour lives in other headers.
- Concurrency: the header declares no locking; concurrent merges into one record are not modelled.
