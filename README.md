# Active subscription registry (HAPI FHIR subscription module)

This project models `SubscriptionRegistry`, the in-memory registry of active
subscriptions in the HAPI FHIR subscription server. The registry owns a cache
from subscription id part to an *active subscription*. An active subscription
holds the canonical form of a subscription. It also holds a delivery channel
and a delivery handler when subscription matching is enabled. The operations
modelled are:

- the lookups `get`, `getAll` and `size`;
- the private `hasSubscription` and `registerSubscription`;
- the idempotent upsert `registerSubscriptionUnlessAlreadyRegistered`;
- the removals `unregisterSubscription` and `unregisterSubscriptionIfRegistered`;
- reconciliation `unregisterAllSubscriptionsNotInCollection`;
- shutdown `preDestroy`;
- `clearForUnitTests`.

Files:

- `wrappers.dfy`: `Option` (Java's `null` and `Optional`) and `Result` (an exception that propagates).
- `canonical.dfy`: the canonical subscription. It has a status, which is a code of the `status` element of the HL7 FHIR R4 Subscription resource. It has an optional channel type and some opaque fields. The file also holds the lower-casing applied to the channel type code.
- `registry_spec.dfy`: each registry operation as a function of the cache. The four step functions `Registered`, `Unregistered`, `Upserted` and `RemovedIfRegistered` return a `Step`: the Java result or the failure thrown, the new cache, and the calls made to the channel factory, the handler factory and the interceptor hook. `Reconciled` returns only the new cache, since reconciliation returns nothing, cannot fail and makes no call. `ValidateId`, `Lookup` and `ExistingSubscription` change nothing and return only a result. The properties of one call are ensures clauses of these functions. The lemmas at the end relate several calls, including whole sequences of operations.
- `registry.dfy`: the class `SubscriptionRegistry`. The cache is a `map` field that the methods update step by step, following the Java code. A ghost `calls` log records the factory and hook invocations. The methods that have a `RegistrySpec` function (`HasSubscription`, `RegisterSubscription`, `UnregisterSubscription`, the upsert, `UnregisterSubscriptionIfRegistered`, the reconciliation and `PreDestroy`) are proved to produce exactly what that function describes. `Get` is tied to `RegistrySpec.Lookup`. `GetAll`, `Size` and `ClearForUnitTests` state their result or new state directly, with no spec function. The public state-changing methods also preserve `Valid()`, the registry invariant. The private `RegisterSubscription` neither requires nor ensures `Valid()`: registering a form that is not ACTIVE would break the invariant. `Registered` keeps it only for an ACTIVE form, and that is why the upsert calls `RegisterSubscription` only from its ACTIVE branch (line 138).

The collaborators are injected in the Java code. Here they are total functions fixed at construction (`Collaborators`): the canonicalizer, the channel factory and the handler factory. The canonicalizer may fail. The "subscription matching enabled" configuration flag is read at registration time, so it is a parameter of the registering methods.

The registry invariant (`RegistrySpec.Invariant`) states three things about every entry:
- its key is a non-blank id part;
- its status is ACTIVE;
- it either has no channel and no handler (matching was disabled), or it has exactly the channel the factory makes for that id and that channel type code, and the handler the handler factory makes for that subscription.

Two behaviours of the code differ from what a caller might expect. The model follows the code:

- A caller might expect a failed registration never to change the cache. In the code, the upsert first unregisters a differing old entry (line 134). Only then does `registerSubscription` dereference the channel type (line 91). With matching enabled and no channel type, that dereference throws. The old entry is then gone and nothing replaces it. `RegistrySpec.Upserted` states this case in both directions (`NullChannelType`), and `RegistrySpec.FailedUpdateStillRemovesOldEntry` exhibits one cache and one resource for which the upsert fails and the cache has still lost its entry. All other failures (a null or blank id, a canonicalization failure) do happen before any mutation.
- A caller might expect a removal to release the removed entry's channel and handler. The registry itself only calls the cache's `remove` and keep-only operations. The cache class is not part of this model, so no release is modelled.

## Model

| member | source | states |
|---|---|---|
| `Canonical.ToLowerCase` | hapi-fhir-jpaserver-subscription/src/main/java/ca/uhn/fhir/jpa/subscription/module/cache/SubscriptionRegistry.java:91 | lower-casing keeps the length and lower-cases each character independently (ASCII letters) |
| `Canonical.LowerCaseCodeIsCode` | hapi-fhir-jpaserver-subscription/src/main/java/ca/uhn/fhir/jpa/subscription/module/cache/SubscriptionRegistry.java:91 | the lower-cased code handed to the channel factory is the channel type's own code |
| `RegistrySpec.ChannelCode` | hapi-fhir-jpaserver-subscription/src/main/java/ca/uhn/fhir/jpa/subscription/module/cache/SubscriptionRegistry.java:91 | the lower-cased code handed to the channel factory equals the channel type's own code |
| `RegistrySpec.ChannelCodeInjective` | hapi-fhir-jpaserver-subscription/src/main/java/ca/uhn/fhir/jpa/subscription/module/cache/SubscriptionRegistry.java:91 | distinct channel types reach the channel factory as distinct codes |
| `RegistrySpec.ValidateId` | hapi-fhir-jpaserver-subscription/src/main/java/ca/uhn/fhir/jpa/subscription/module/cache/SubscriptionRegistry.java:73-74 | an id is accepted exactly when it is non-null and its id part is non-null and not blank; the accepted value is that id part; otherwise the failure says which check failed |
| `RegistrySpec.Lookup` | hapi-fhir-jpaserver-subscription/src/main/java/ca/uhn/fhir/jpa/subscription/module/cache/SubscriptionRegistry.java:64-66 | the result is present exactly when the id part is a key, and it is that key's entry |
| `RegistrySpec.ExistingSubscription` | hapi-fhir-jpaserver-subscription/src/main/java/ca/uhn/fhir/jpa/subscription/module/cache/SubscriptionRegistry.java:72-77 | an invalid id is rejected with its validation failure; otherwise the result is present exactly when the id part is registered, and it is that entry's canonical subscription |
| `RegistrySpec.Registered` | hapi-fhir-jpaserver-subscription/src/main/java/ca/uhn/fhir/jpa/subscription/module/cache/SubscriptionRegistry.java:80-107 | a valid id, a successful canonicalization and (with matching enabled) a channel type always register and return the canonical form; any failure leaves the cache unchanged and makes no call; on success the canonical form is stored under exactly the id part, other ids are untouched, and the hook is called last; with matching disabled the entry has no channel or handler and no factory is called; with matching enabled the channel factory gets the id part and the lower-cased type code; an ACTIVE registration keeps the invariant |
| `RegistrySpec.Unregistered` | hapi-fhir-jpaserver-subscription/src/main/java/ca/uhn/fhir/jpa/subscription/module/cache/SubscriptionRegistry.java:109-113 | only a null id is rejected; the id part is absent afterwards, other entries are unchanged, the cache is unchanged when the id was absent, and the size drops by one exactly when it was present |
| `RegistrySpec.Upserted` | hapi-fhir-jpaserver-subscription/src/main/java/ca/uhn/fhir/jpa/subscription/module/cache/SubscriptionRegistry.java:124-145 | a bad id or a canonicalization failure changes nothing; an equal existing entry gives false and no change; the result is true exactly when the new form is ACTIVE and not already held (and can be wired), after which the cache holds it; a changed non-ACTIVE form gives false and the cache minus the id; a changed ACTIVE form without a channel type, with matching enabled, gives the `NullChannelType` failure and the cache minus the id (the old entry removed, nothing registered), and that failure arises only then; under the invariant a non-ACTIVE form never leaves an entry for the id; other ids are untouched; factory calls follow the matching flag; without a registration nothing is added or altered and no call is made; the invariant is preserved |
| `RegistrySpec.FailedUpdateStillRemovesOldEntry` | hapi-fhir-jpaserver-subscription/src/main/java/ca/uhn/fhir/jpa/subscription/module/cache/SubscriptionRegistry.java:134-140 | for a concrete well-formed cache and an ACTIVE update without a channel type, with matching enabled, the upsert fails and the cache is left empty |
| `RegistrySpec.RemovedIfRegistered` | hapi-fhir-jpaserver-subscription/src/main/java/ca/uhn/fhir/jpa/subscription/module/cache/SubscriptionRegistry.java:147-154 | an invalid id is rejected without change; otherwise the result is whether the id part was registered, it is absent afterwards, and other entries are unchanged |
| `RegistrySpec.Reconciled` | hapi-fhir-jpaserver-subscription/src/main/java/ca/uhn/fhir/jpa/subscription/module/cache/SubscriptionRegistry.java:120-122 | exactly the entries whose ids are in the collection remain, with their values unchanged |
| `RegistrySpec.ShutdownEmptiesCache` | hapi-fhir-jpaserver-subscription/src/main/java/ca/uhn/fhir/jpa/subscription/module/cache/SubscriptionRegistry.java:115-118 | reconciling against the empty collection leaves size 0 |
| `RegistrySpec.ReconcileIdempotent` | hapi-fhir-jpaserver-subscription/src/main/java/ca/uhn/fhir/jpa/subscription/module/cache/SubscriptionRegistry.java:120-122 | a second reconciliation against the same collection changes nothing |
| `RegistrySpec.RegisterTwiceIsNoOp` | hapi-fhir-jpaserver-subscription/src/main/java/ca/uhn/fhir/jpa/subscription/module/cache/SubscriptionRegistry.java:124-140 | right after a successful upsert, the same upsert returns false, makes no factory call and leaves the cache unchanged |
| `RegistrySpec.ApplyKeepsInvariant` | hapi-fhir-jpaserver-subscription/src/main/java/ca/uhn/fhir/jpa/subscription/module/cache/SubscriptionRegistry.java:109-163 | every public mutating operation preserves the invariant (ACTIVE only, valid keys, wiring tied to the id) |
| `RegistrySpec.RunKeepsInvariant` | hapi-fhir-jpaserver-subscription/src/main/java/ca/uhn/fhir/jpa/subscription/module/cache/SubscriptionRegistry.java:80-163 | any sequence of public operations preserves the invariant, because `registerSubscription` is only reached from the ACTIVE branch |
| `RegistrySpec.RunWithMatchingDisabledStaysUnwired` | hapi-fhir-jpaserver-subscription/src/main/java/ca/uhn/fhir/jpa/subscription/module/cache/SubscriptionRegistry.java:90-96 | if matching is disabled for every registration, a cache without channels or handlers never gains one |
| `Registry.SubscriptionRegistry.constructor` | hapi-fhir-jpaserver-subscription/src/main/java/ca/uhn/fhir/jpa/subscription/module/cache/SubscriptionRegistry.java:52-62 | a new registry has an empty cache, an empty call log, and satisfies the invariant |
| `Registry.SubscriptionRegistry.Get` | hapi-fhir-jpaserver-subscription/src/main/java/ca/uhn/fhir/jpa/subscription/module/cache/SubscriptionRegistry.java:64-66 | returns what `Lookup` gives on the current cache: the entry for the id part exactly when one is registered |
| `Registry.SubscriptionRegistry.GetAll` | hapi-fhir-jpaserver-subscription/src/main/java/ca/uhn/fhir/jpa/subscription/module/cache/SubscriptionRegistry.java:68-70 | returns exactly the entries stored under some id |
| `Registry.SubscriptionRegistry.Size` | hapi-fhir-jpaserver-subscription/src/main/java/ca/uhn/fhir/jpa/subscription/module/cache/SubscriptionRegistry.java:156-158 | returns the number of registered ids |
| `Registry.SubscriptionRegistry.HasSubscription` | hapi-fhir-jpaserver-subscription/src/main/java/ca/uhn/fhir/jpa/subscription/module/cache/SubscriptionRegistry.java:72-77 | returns what `ExistingSubscription` describes for the current cache |
| `Registry.SubscriptionRegistry.RegisterSubscription` | hapi-fhir-jpaserver-subscription/src/main/java/ca/uhn/fhir/jpa/subscription/module/cache/SubscriptionRegistry.java:80-107 | the result, the new cache and the calls appended to the log are those of `Registered` on the old cache |
| `Registry.SubscriptionRegistry.UnregisterSubscription` | hapi-fhir-jpaserver-subscription/src/main/java/ca/uhn/fhir/jpa/subscription/module/cache/SubscriptionRegistry.java:109-113 | the result and the new cache are those of `Unregistered`; no call is made; the invariant is kept |
| `Registry.SubscriptionRegistry.PreDestroy` | hapi-fhir-jpaserver-subscription/src/main/java/ca/uhn/fhir/jpa/subscription/module/cache/SubscriptionRegistry.java:115-118 | reconciles against the empty collection; the size is 0 afterwards |
| `Registry.SubscriptionRegistry.UnregisterAllSubscriptionsNotInCollection` | hapi-fhir-jpaserver-subscription/src/main/java/ca/uhn/fhir/jpa/subscription/module/cache/SubscriptionRegistry.java:120-122 | the new cache is `Reconciled` of the old one; the invariant is kept |
| `Registry.SubscriptionRegistry.RegisterSubscriptionUnlessAlreadyRegistered` | hapi-fhir-jpaserver-subscription/src/main/java/ca/uhn/fhir/jpa/subscription/module/cache/SubscriptionRegistry.java:124-145 | the result, the new cache and the calls appended to the log are those of `Upserted` on the old cache; the invariant is kept |
| `Registry.SubscriptionRegistry.UnregisterSubscriptionIfRegistered` | hapi-fhir-jpaserver-subscription/src/main/java/ca/uhn/fhir/jpa/subscription/module/cache/SubscriptionRegistry.java:147-154 | the result and the new cache are those of `RemovedIfRegistered`; no call is made; the invariant is kept |
| `Registry.SubscriptionRegistry.ClearForUnitTests` | hapi-fhir-jpaserver-subscription/src/main/java/ca/uhn/fhir/jpa/subscription/module/cache/SubscriptionRegistry.java:160-163 | the cache is empty afterwards and the invariant holds |

## Left out

- Concurrency: `synchronized` on the upsert and the thread safety of the cache. Each public method is one atomic sequential step.
- The internals of `ActiveSubscriptionCache` are not part of this model. It is a `map` with get, put, remove, keep-only and clear. The release of a removed entry's channel and handler is not modelled.
- `BaseJpaDstu3Test.java` is test scaffolding with no registry logic. It is not part of this model.
- The internals of the canonicalizer and FHIR resource parsing: the canonicalizer is a given total function that may fail.
- The channel factory, the handler factory and the interceptor hook are given total functions, or just entries in the call log. Exceptions they might throw are not modelled, and neither are the hook's effects.
- `SubscribableChannel` and `MessageHandler` are opaque handles. Subscribing the handler to the channel (`ActiveSubscription.register`) is modelled only as storing the handler in the entry.
- Logging, and the `@PreDestroy`, `@Autowired` and `@Component` container wiring.
- A null resource passed to the upsert or to `unregisterSubscriptionIfRegistered` is not modelled. Resources are values.
- UnregisterSubscription: for a non-null id with a null id part, the call goes to the cache's `remove(null)`, whose behaviour depends on the cache class. It is modelled as removing nothing, since no key is null.
- ToLowerCase: only ASCII letters are lower-cased. Java's locale-sensitive Unicode lower-casing is not modelled. The only inputs are the channel type codes, which are ASCII.
- GetAll: returns the set of entries, so two ids holding identical entries appear once. The Java collection would hold both.
- Get: takes a `string`, so `get(null)` is not modelled.
- UnregisterAllSubscriptionsNotInCollection: takes a sequence, so a null collection is not modelled.
- Size: returns an unbounded `nat`. Java's `int` is not modelled; it cannot overflow at any realistic cache size.
