/**
 * The subscription registry: the cache of active subscriptions and the operations
 * that register, replace, look up, unregister and reconcile them. Each method does
 * its work step by step on the `cache` field; where `RegistrySpec` has a function
 * for the operation, the method is proved to do what that function describes.
 */
module Registry {
  import opened Wrappers
  import opened Canonical
  import S = RegistrySpec

  class SubscriptionRegistry {
    /** `myActiveSubscriptionCache`: the active subscriptions, keyed by id part. */
    var cache: S.Cache

    /** The canonicalizer and the two factories, fixed when the registry is wired. */
    const collaborators: S.Collaborators

    /** Every call made to the factories and the hook, in order. */
    ghost var calls: seq<S.Call>

    /** Every entry is ACTIVE, under a valid id part, and wired for that id. */
    ghost predicate Valid()
      reads this
    {
      S.Invariant(cache, collaborators)
    }

    constructor (collaborators: S.Collaborators)
      ensures Valid()
      ensures this.collaborators == collaborators
      ensures cache == map[] && calls == []
    {
      this.collaborators := collaborators;
      cache := map[];
      calls := [];
    }

    /** `get(theIdPart)`: the entry for the id part, `None` when there is none. */
    method Get(idPart: string) returns (r: Option<S.ActiveSubscription>)
      ensures r == S.Lookup(cache, idPart)
    {
      if idPart in cache {
        r := Some(cache[idPart]);
      } else {
        r := None;
      }
    }

    /** `getAll()`: the entries of the cache. */
    method GetAll() returns (r: set<S.ActiveSubscription>)
      ensures forall e :: e in r <==> exists k | k in cache :: cache[k] == e
    {
      r := cache.Values;
    }

    /** `size()`: the number of registered ids. */
    method Size() returns (n: nat)
      ensures n == |cache.Keys|
    {
      n := |cache.Keys|;
    }

    /**
     * `hasSubscription(theId)`: validates the id, then gives the canonical
     * subscription registered under its id part, if any.
     */
    method HasSubscription(id: Option<S.IdType>) returns (r: Result<Option<CanonicalSubscription>, S.Failure>)
      ensures r == S.ExistingSubscription(cache, id)
    {
      var validated := S.ValidateId(id);
      if validated.Err? {
        return Err(validated.error);
      }
      var active := Get(validated.value);
      if active.Some? {
        r := Ok(Some(active.value.subscription));
      } else {
        r := Ok(None);
      }
    }

    /**
     * `registerSubscription(theId, theSubscription)`: builds the entry, with a
     * delivery channel and handler only when matching is enabled, puts it under
     * the id part and notifies the hook.
     */
    method RegisterSubscription(id: Option<S.IdType>, subscription: S.SubscriptionResource, matchingEnabled: bool)
      returns (r: Result<CanonicalSubscription, S.Failure>)
      modifies this
      ensures var s := S.Registered(old(cache), id, subscription, matchingEnabled, collaborators);
              r == s.result && cache == s.cache && calls == old(calls) + s.calls
    {
      var validated := S.ValidateId(id);
      if validated.Err? {
        return Err(validated.error);
      }
      var subscriptionId := validated.value;
      var canonicalized := collaborators.canonicalize(subscription);
      if canonicalized.Err? {
        return Err(S.CanonicalizationFailed(canonicalized.error));
      }
      var c := canonicalized.value;
      var deliveryChannel: Option<S.DeliveryChannel>;
      var deliveryHandler: Option<S.DeliveryHandler>;
      if matchingEnabled {
        if c.channelType.None? {
          return Err(S.NullChannelType);
        }
        var code := ToLowerCase(ToCode(c.channelType.value));
        deliveryChannel := Some(collaborators.newDeliveryChannel(subscriptionId, code));
        calls := calls + [S.NewDeliveryChannel(subscriptionId, code)];
        deliveryHandler := collaborators.createDeliveryHandler(c);
        calls := calls + [S.CreateDeliveryHandler(c)];
      } else {
        deliveryChannel := None;
        deliveryHandler := None;
      }
      var activeSubscription := S.ActiveSubscription(c, deliveryChannel, None);
      if deliveryHandler.Some? {
        activeSubscription := activeSubscription.(handler := deliveryHandler);
      }
      cache := cache[subscriptionId := activeSubscription];
      calls := calls + [S.SubscriptionRegisteredHook(c)];
      r := Ok(c);
    }

    /** `unregisterSubscription(theId)`: removes the entry under the id part, if any. */
    method UnregisterSubscription(id: Option<S.IdType>) returns (r: Result<(), S.Failure>)
      requires Valid()
      modifies this
      ensures Valid() && calls == old(calls)
      ensures var s := S.Unregistered(old(cache), id);
              r == s.result && cache == s.cache
    {
      if id.None? {
        return Err(S.NullId);
      }
      var subscriptionId := id.value.idPart;
      if subscriptionId.Some? {
        cache := cache - {subscriptionId.value};
      }
      r := Ok(());
      S.SubCacheKeepsInvariant(cache, old(cache), collaborators);
    }

    /** `preDestroy()`: unregisters every subscription. */
    method PreDestroy()
      requires Valid()
      modifies this
      ensures Valid() && calls == old(calls)
      ensures cache == S.Reconciled(old(cache), [])
      ensures |cache| == 0
    {
      UnregisterAllSubscriptionsNotInCollection([]);
      S.ShutdownEmptiesCache(old(cache));
    }

    /**
     * `unregisterAllSubscriptionsNotInCollection(theAllIds)`: keeps exactly the
     * entries whose ids are in the collection.
     */
    method UnregisterAllSubscriptionsNotInCollection(allIds: seq<string>)
      requires Valid()
      modifies this
      ensures Valid() && calls == old(calls)
      ensures cache == S.Reconciled(old(cache), allIds)
    {
      cache := map k | k in cache && k in allIds :: cache[k];
      S.SubCacheKeepsInvariant(cache, old(cache), collaborators);
    }

    /**
     * `registerSubscriptionUnlessAlreadyRegistered(theSubscription)`: looks up the
     * existing entry, canonicalizes, does nothing when the two are equal, otherwise
     * unregisters the old entry and registers the new one only if it is ACTIVE.
     * The result says whether a registration took place.
     */
    method RegisterSubscriptionUnlessAlreadyRegistered(subscription: S.SubscriptionResource, matchingEnabled: bool)
      returns (r: Result<bool, S.Failure>)
      requires Valid()
      modifies this
      ensures Valid()
      ensures var s := S.Upserted(old(cache), subscription, matchingEnabled, collaborators);
              r == s.result && cache == s.cache && calls == old(calls) + s.calls
    {
      var existingSubscription := HasSubscription(subscription.idElement);
      if existingSubscription.Err? {
        return Err(existingSubscription.error);
      }
      var canonicalized := collaborators.canonicalize(subscription);
      if canonicalized.Err? {
        return Err(S.CanonicalizationFailed(canonicalized.error));
      }
      var newSubscription := canonicalized.value;
      if existingSubscription.value.Some? {
        if newSubscription == existingSubscription.value.value {
          return Ok(false);
        }
        var _ := UnregisterSubscription(subscription.idElement);
      }
      if newSubscription.status == Some(Active) {
        var registered := RegisterSubscription(subscription.idElement, subscription, matchingEnabled);
        if registered.Err? {
          return Err(registered.error);
        }
        r := Ok(true);
      } else {
        r := Ok(false);
      }
    }

    /**
     * `unregisterSubscriptionIfRegistered(theSubscription, theStatusString)`:
     * unregisters the resource's id and says whether it was registered. The status
     * string only labels a log line.
     */
    method UnregisterSubscriptionIfRegistered(subscription: S.SubscriptionResource, statusString: string)
      returns (r: Result<bool, S.Failure>)
      requires Valid()
      modifies this
      ensures Valid() && calls == old(calls)
      ensures var s := S.RemovedIfRegistered(old(cache), subscription);
              r == s.result && cache == s.cache
    {
      var existing := HasSubscription(subscription.idElement);
      if existing.Err? {
        return Err(existing.error);
      }
      if existing.value.Some? {
        var _ := UnregisterSubscription(subscription.idElement);
        return Ok(true);
      }
      r := Ok(false);
    }

    /** `clearForUnitTests()`: empties the cache. */
    method ClearForUnitTests()
      modifies this
      ensures Valid() && calls == old(calls)
      ensures cache == map[]
    {
      cache := map[];
    }
  }
}
