/**
 * The api-key lookup hook (src/hooks/useApiKeys.ts): the key of one service, loaded from
 * the record store by an effect and replaced by `updateKey`.
 *
 * The hook's two state cells are fields of an `ApiKeyHook` object; the record store is the
 * `Storage` object it reads and writes. The success toast is not modelled.
 */
module UseApiKeys {
  import opened Wrappers
  import opened JsArray
  import opened AdminTypes
  import opened StorageService

  function ActiveOf(service: Service): ApiKey -> bool { (k: ApiKey) => k.service == service && k.active }
  function OfService(service: Service): ApiKey -> bool { (k: ApiKey) => k.service == service }

  /**
   * `keys.find(k => k.service === service && k.active)?.key || null`: the key of the first
   * active record of the service; an empty key is falsy and also reads as null.
   */
  function ActiveKey(keys: seq<ApiKey>, service: Service): (r: Option<string>)
    ensures r.Some? <==> exists i :: 0 <= i < |keys| && FirstActive(keys, service, i) && keys[i].key != ""
    ensures r.Some? ==> exists i :: 0 <= i < |keys| && FirstActive(keys, service, i) && r.value == keys[i].key
  {
    var found := Find(keys, ActiveOf(service));
    if found.Some? && found.value.key != "" then Some(found.value.key) else None
  }

  /** Record `i` is the first active record of the service. */
  ghost predicate FirstActive(keys: seq<ApiKey>, service: Service, i: nat)
    requires i < |keys|
  {
    && keys[i].service == service && keys[i].active
    && forall j :: 0 <= j < i ==> !(keys[j].service == service && keys[j].active)
  }

  /** Inactive records and records of other services are never chosen. */
  lemma ActiveKeyIgnoresInactive(keys: seq<ApiKey>, service: Service)
    requires forall i :: 0 <= i < |keys| ==> keys[i].service != service || !keys[i].active
    ensures ActiveKey(keys, service) == None
  {
    assert FindIndex(keys, ActiveOf(service)) == -1;
  }

  /** The partial update `updateKey` sends: the new key, and active. */
  function KeyUpdate(newKey: string): ApiKeyUpdate {
    NO_API_KEY_CHANGES.(key := Some(newKey), active := Some(true))
  }

  /**
   * With unique ids, the update `updateKey` sends by id lands on the first record of the
   * service, whether that record was active or not.
   */
  lemma UpdateKeyTargetsFirstOfService(keys: seq<ApiKey>, service: Service)
    requires forall i, j :: 0 <= i < j < |keys| ==> keys[i].id != keys[j].id
    requires FindIndex(keys, OfService(service)) >= 0
    ensures var i := FindIndex(keys, OfService(service));
      FindIndex(keys, ApiKeyIdIs(keys[i].id)) == i
  {
    var i := FindIndex(keys, OfService(service));
    var k := FindIndex(keys, ApiKeyIdIs(keys[i].id));
    assert ApiKeyIdIs(keys[i].id)(keys[i]);
    assert k <= i;
  }

  class ApiKeyHook {
    const store: Storage
    const service: Service
    var apiKey: Option<string>
    var isLoading: bool

    /** The hook's initial state: no key, loading. */
    constructor(store: Storage, service: Service)
      ensures this.store == store && this.service == service
      ensures apiKey == None && isLoading
    {
      this.store := store;
      this.service := service;
      apiKey := None;
      isLoading := true;
    }

    /** The effect: looks the key up and ends loading; the store is only read. */
    method LoadEffect()
      modifies this
      ensures apiKey == ActiveKey(store.GetApiKeys(), service) && !isLoading
    {
      var keys := store.GetApiKeys();
      apiKey := ActiveKey(keys, service);
      isLoading := false;
    }

    /**
     * `updateKey`: rewrites the first record of the service, by its id, with the new key
     * and active; with no record of the service the store is untouched. The local key
     * becomes the new key either way.
     */
    method UpdateKey(newKey: string)
      modifies this, store
      ensures apiKey == Some(newKey) && isLoading == old(isLoading)
      ensures var keys := old(store.GetApiKeys());
        var found := Find(keys, OfService(service));
        if found.None? then store.local == old(store.local)
        else match UpdateFirst(keys, ApiKeyIdIs(found.value.id), ApiKeyMerger(KeyUpdate(newKey)))
          case Some(updated) => store.local == old(store.local)[API_KEYS_KEY := Json(ApiKeyList(updated))]
          case None => false
    {
      var keys := store.GetApiKeys();
      var existing := Find(keys, OfService(service));
      if existing.Some? {
        assert ApiKeyIdIs(existing.value.id)(keys[FindIndex(keys, OfService(service))]);
        var _ := store.UpdateApiKey(existing.value.id, KeyUpdate(newKey));
      }
      apiKey := Some(newKey);
    }
  }
}
