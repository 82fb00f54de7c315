# OrientDB remote task catalog and index metadata, in Dafny

This project models two small, self-contained pieces of OrientDB.

- **The version-1 remote task catalog** of the distributed server
  (`ODefaultRemoteTaskFactoryV1`). A node receives an integer task code from a
  peer. `createTask` turns it into a fresh task of the matching class, or
  rejects it. Code 28 is reserved for the local-only "unreachable server"
  marker and gets its own "not supported in remote configuration" error. Any
  other unknown code gets a plain "not supported" error. In the code, both
  rejections are an `IllegalArgumentException` and differ only in their
  message. The model gives them two distinct constructors of `TaskResult`.
  `getProtocolVersion` returns 1. Each task class is a constructor tag of `TaskCatalog.TaskKind`.
  The tags include the plain completion task `OCompleted2pcTask`: its code, 8,
  names the switch case, but version 1 hands out `OCompleted2pcTaskV1` for it.
- **The index descriptor `OIndexInternal.IndexMetadata`**, a record of six
  `final` fields. Its `equals` compares five fields and never looks at
  `valueContainerAlgorithm`. Its `hashCode` folds the hashes of the same five
  fields with the multiplier 31 in Java `int` arithmetic. The model writes this
  as a fold (`JavaInt.HashFold`) over the five field hashes in source order.
  The record is a Dafny datatype. The Java constructor is the datatype
  constructor, and each getter is the destructor of the same name (`type` is
  called `indexType`, because `type` is a Dafny keyword), so each getter
  returns the constructor's argument. The nullable fields `indexDefinition`,
  `algorithm` and `valueContainerAlgorithm` are `Option`s.
- **The documented key-lock surface** of an index: `lockKeysForUpdateNoTx`
  and `releaseKeysForUpdateNoTx`. The interface has no implementation, so the
  model is a class that holds one thread's locked keys. Its contracts come
  only from the documentation comments.

Modules:

- `JavaInt` holds Java's `int` and its wrap-around (`Wrap`).
- `TaskCatalog` models `ODefaultRemoteTaskFactoryV1`.
- `IndexInternal` models `IndexMetadata`.
- `IndexKeyLocks` models the lock surface.
- `Wrappers` holds the `Option` type used for Java `null`.

The index methods call into code outside the model: `String.hashCode`,
`Set.hashCode`, `OIndexDefinition.equals` and `OIndexDefinition.hashCode`.
These are the four fields of a `Collaborators` value, passed as a parameter.
The lemmas require what Java's `Object` contract promises of them:
- `DefinitionEqualsIsEquivalence`: the definitions' `equals` is an equivalence relation.
- `DefinitionHashAgrees`: equal definitions hash alike.

`String.equals` and `Set.equals` compare contents. They are Dafny's `==` on
`string` and `set<string>`.

## Model

| member | source | states |
|---|---|---|
| `TaskCatalog.CreateTask` | distributed/src/main/java/com/orientechnologies/orient/server/distributed/impl/task/ODefaultRemoteTaskFactoryV1.java:33-127 | total over every `int`: a task exactly for codes 0–27 and 29, the remote-configuration error exactly for 28, the plain "not supported" error exactly for codes below 0 or above 29; every error carries the requested code |
| `TaskCatalog.FactoryId` | distributed/src/main/java/com/orientechnologies/orient/server/distributed/impl/task/ODefaultRemoteTaskFactoryV1.java:35-123 | every task class's code lies in the table 0–29: the case comments give the codes, and the V1 completion task is assumed to share code 8 with the task it replaces, because its case is labelled `OCompleted2pcTask.FACTORYID` |
| `TaskCatalog.ProtocolVersion` | distributed/src/main/java/com/orientechnologies/orient/server/distributed/impl/task/ODefaultRemoteTaskFactoryV1.java:129-132 | this catalog is protocol version 1 |
| `TaskCatalog.CodeRoundTrip` | distributed/src/main/java/com/orientechnologies/orient/server/distributed/impl/task/ODefaultRemoteTaskFactoryV1.java:35-123 | every code a peer may send yields a task whose own factory code is that code (code → kind → code) |
| `TaskCatalog.CreateTaskInjective` | distributed/src/main/java/com/orientechnologies/orient/server/distributed/impl/task/ODefaultRemoteTaskFactoryV1.java:35-123 | two codes that yield the same task kind are the same code |
| `TaskCatalog.KindRoundTrip` | distributed/src/main/java/com/orientechnologies/orient/server/distributed/impl/task/ODefaultRemoteTaskFactoryV1.java:33-127 | kind → code → kind gives back the kind if and only if it is neither the plain completion task nor the local-only marker |
| `TaskCatalog.CompletionCodeGivesV1Variant` | distributed/src/main/java/com/orientechnologies/orient/server/distributed/impl/task/ODefaultRemoteTaskFactoryV1.java:59-60 | the completion code yields the version-1 completion task carrying partition keys, never the plain one |
| `TaskCatalog.ErrorClassesDistinct` | distributed/src/main/java/com/orientechnologies/orient/server/distributed/impl/task/ODefaultRemoteTaskFactoryV1.java:119-126 | no code gets both errors, and the remote-configuration error belongs to the unreachable-server code alone |
| `JavaInt.Wrap` | core/src/main/java/com/orientechnologies/orient/core/index/OIndexInternal.java:266-271 | the Java `int` result of an arithmetic step is congruent to the exact value modulo 2^32, and equals it when it fits |
| `JavaInt.WrapHashStep` | core/src/main/java/com/orientechnologies/orient/core/index/OIndexInternal.java:267-270 | wrapping the running hash before a step `31 * result + v` changes nothing: only the final reduction matters |
| `JavaInt.HashFoldWrapsExactFold` | core/src/main/java/com/orientechnologies/orient/core/index/OIndexInternal.java:266-271 | the fold `result = 31 * result + h` in Java `int` arithmetic equals the exact polynomial in 31 reduced once to a Java `int`, for any number of hashes |
| `IndexInternal.Equals` | core/src/main/java/com/orientechnologies/orient/core/index/OIndexInternal.java:241-262 | false against `null` and other classes; true against the same value; when true, name, type, clusters and algorithm agree |
| `IndexInternal.EqualsIff` | core/src/main/java/com/orientechnologies/orient/core/index/OIndexInternal.java:250-259 | `equals` holds iff name, type and clusters are equal, algorithm is equal or both null, and definition is equal or both null |
| `IndexInternal.EqualsIgnoresValueContainerAlgorithm` | core/src/main/java/com/orientechnologies/orient/core/index/OIndexInternal.java:241-262 | two descriptors that differ only in `valueContainerAlgorithm` are equal |
| `IndexInternal.EqualsReflexiveAndNullSafe` | core/src/main/java/com/orientechnologies/orient/core/index/OIndexInternal.java:243-246 | `equals` is reflexive and false against `null` and against other classes |
| `IndexInternal.EqualsSymmetric` | core/src/main/java/com/orientechnologies/orient/core/index/OIndexInternal.java:248-259 | `equals` is symmetric |
| `IndexInternal.EqualsTransitive` | core/src/main/java/com/orientechnologies/orient/core/index/OIndexInternal.java:248-259 | `equals` is transitive, so with the two above it is an equivalence relation |
| `IndexInternal.HashCode` | core/src/main/java/com/orientechnologies/orient/core/index/OIndexInternal.java:264-272 | the five-step fold wraps to the exact 31-polynomial over the field hashes in source order; `HashCodeIsPolynomial` writes that polynomial out and `HashCodeAgreesWithEquals` ties it to `equals` |
| `IndexInternal.HashCodeIsPolynomial` | core/src/main/java/com/orientechnologies/orient/core/index/OIndexInternal.java:265-272 | `hashCode` is `31^4 h(name) + 31^3 h(definition) + 31^2 h(clusters) + 31 h(type) + h(algorithm)` reduced once to a Java `int`, a null definition or algorithm contributing 0 |
| `IndexInternal.HashCodeAgreesWithEquals` | core/src/main/java/com/orientechnologies/orient/core/index/OIndexInternal.java:241-272 | equal descriptors have equal hash codes |
| `IndexInternal.HashCodeIgnoresValueContainerAlgorithm` | core/src/main/java/com/orientechnologies/orient/core/index/OIndexInternal.java:264-276 | `valueContainerAlgorithm` does not enter the hash code |
| `IndexKeyLocks.KeyLocks.LockKeysForUpdateNoTx` | core/src/main/java/com/orientechnologies/orient/core/index/OIndexInternal.java:97-141 | all keys are locked in one call; a second call before releasing is not allowed (precondition); with a transaction active nothing changes |
| `IndexKeyLocks.KeyLocks.ReleaseKeysForUpdateNoTx` | core/src/main/java/com/orientechnologies/orient/core/index/OIndexInternal.java:143-175 | the held set loses exactly the given keys, so they no longer keep out `put`, `checkEntry` and `remove`; other locks stay |

## Left out

- The task classes themselves (payloads, serialization, `execute`) are not part of this model; each is only a constructor tag.
- The version-0 factory that version 1 extends is not part of this model, so nothing is claimed about its mapping. The plain completion task appears only as the kind version 1 does not produce.
- The exception message texts are not modelled. Each error carries the code that its message reports.
- `IndexInternal.Equals`: reads Java's reference-identity shortcut `this == o` as equality of values. This is what identity implies. When the definitions' `equals` is reflexive, the two readings agree (`EqualsIff`).
- `IndexInternal.Equals`: the model excludes a null `name`, `type` or `clustersToIndex` by type. In the source, such a null in the argument makes `equals` return false, and in the receiver it makes `equals` throw `NullPointerException` only when the comparison reaches that field. `hashCode` always throws on it. The model loses these outcomes.
- `IndexInternal.HashCode`: a descriptor is modelled as a value snapshot. The source stores the caller's `Set<String>` and `OIndexDefinition` without copying them and hands the same objects out through `getClustersToIndex` and `getIndexDefinition`. Mutating those objects changes what `equals` and `hashCode` return for an existing descriptor. The model does not capture this aliasing.
- `IndexInternal.Equals`: `OIndexDefinition.equals(null)` is taken to be false, as Java's `Object.equals` contract requires.
- `String.hashCode`, `Set.hashCode`, `OIndexDefinition.equals` and `OIndexDefinition.hashCode` are library or foreign code. They are parameters, constrained only by Java's `Object` contract where a lemma needs it.
- `loadFromConfiguration`, `updateConfiguration` and `loadMetadata` are declared in `OIndexInternal` without bodies. They work on the foreign `ODocument` type, so no configuration round trip is modelled.
- `interpretTxKeyChanges` is a declaration only. Its reduction rules are not specified by the interface, so it is not modelled.
- The other abstract index operations (`addCluster`, `removeCluster`, `canBeUsedInEqualityOperators`, `commit`, `close` and the rest) are not part of this model. Some have documentation comments, but the interface declares no implementation of them.
- `IndexKeyLocks.KeyLocks.LockKeysForUpdateNoTx`: blocking while another thread holds a key, the deterministic key ordering and deadlock freedom are not modelled. They are concurrency properties, and the interface declares no implementation of them.
- `IndexKeyLocks.KeyLocks.LockKeysForUpdateNoTx`: the active transaction is an argument, not ambient thread state.
- The varargs and `Collection` overloads of each lock operation share one documented contract. They are modelled once, with the keys given as a sequence.
- The two-phase-commit coordinator and the replica logic live outside `ODefaultRemoteTaskFactoryV1` and `OIndexInternal` and are not part of this model.
