/**
 * The api-key administration hook (src/hooks/useApiKeysManagement.ts): the loaded key list,
 * the per-key "show" flags, and the handlers that create, toggle and delete keys.
 *
 * `window.confirm` is the `confirmed` argument of the delete handler; fresh ids and times
 * are parameters of the create handler; toasts are not modelled.
 */
module UseApiKeysManagement {
  import opened Wrappers
  import opened JsArray
  import opened AdminTypes
  import opened StorageService

  /** `showKeys[id]`: an absent entry is falsy. */
  predicate Shown(showKeys: map<string, bool>, id: string) {
    id in showKeys && showKeys[id]
  }

  /** `{ ...prev, [id]: !prev[id] }`: flips the flag of `id` and only that one. */
  function ToggleShow(showKeys: map<string, bool>, id: string): (r: map<string, bool>)
    ensures id in r && (Shown(r, id) <==> !Shown(showKeys, id))
    ensures forall x :: x != id ==> (x in r <==> x in showKeys) && (x in r ==> r[x] == showKeys[x])
  {
    showKeys[id := !Shown(showKeys, id)]
  }

  /** Showing a key twice hides it again: every flag reads as it did. */
  lemma ToggleShowTwice(showKeys: map<string, bool>, id: string)
    ensures forall x :: Shown(ToggleShow(ToggleShow(showKeys, id), id), x) == Shown(showKeys, x)
  {
  }

  /** The create form is accepted only with a name and a key. */
  predicate CreateAccepted(k: NewApiKey) {
    k.name != "" && k.key != ""
  }

  /** The partial update the toggle handler sends: the negation of the displayed state. */
  function ActiveUpdate(active: bool): ApiKeyUpdate {
    NO_API_KEY_CHANGES.(active := Some(active))
  }

  /**
   * The toggle writes `!currentActive` into the first record with the id, whatever that
   * record's stored flag was, and changes nothing else in it.
   */
  lemma ToggleSetsNegation(keys: seq<ApiKey>, id: string, currentActive: bool)
    requires exists i :: 0 <= i < |keys| && keys[i].id == id
    ensures var r := UpdateFirst(keys, ApiKeyIdIs(id), ApiKeyMerger(ActiveUpdate(!currentActive)));
      var i := FindIndex(keys, ApiKeyIdIs(id));
      && r.Some? && 0 <= i < |r.value|
      && r.value[i] == keys[i].(active := !currentActive)
      && forall j :: 0 <= j < |keys| && j != i ==> r.value[j] == keys[j]
  {
    var i :| 0 <= i < |keys| && keys[i].id == id;
    assert ApiKeyIdIs(id)(keys[i]);
  }

  class ApiKeysManagement {
    const store: Storage
    var apiKeys: seq<ApiKey>
    var showKeys: map<string, bool>

    constructor(store: Storage)
      ensures this.store == store && apiKeys == [] && showKeys == map[]
    {
      this.store := store;
      apiKeys := [];
      showKeys := map[];
    }

    /** `loadApiKeys`: the list becomes the stored list. */
    method LoadApiKeys()
      modifies this
      ensures apiKeys == store.GetApiKeys() && showKeys == old(showKeys)
    {
      apiKeys := store.GetApiKeys();
    }

    /**
     * `handleCreateApiKey`: refuses a record without a name or a key, leaving everything as
     * it was; otherwise saves exactly one record, reloads the list and returns true.
     */
    method HandleCreateApiKey(newApiKey: NewApiKey, id: string, now: string) returns (ok: bool)
      modifies this, store
      ensures ok <==> CreateAccepted(newApiKey)
      ensures !ok ==> store.local == old(store.local) && apiKeys == old(apiKeys)
      ensures ok ==> store.local == old(store.local)[API_KEYS_KEY :=
        Json(ApiKeyList(old(store.GetApiKeys()) + [ApiKey(id, newApiKey.name, newApiKey.key, newApiKey.service, now, newApiKey.active)]))]
      ensures ok ==>
        store.GetApiKeys() == old(store.GetApiKeys()) + [ApiKey(id, newApiKey.name, newApiKey.key, newApiKey.service, now, newApiKey.active)]
      ensures ok ==> apiKeys == store.GetApiKeys()
      ensures showKeys == old(showKeys)
    {
      if newApiKey.name == "" || newApiKey.key == "" {
        return false;
      }
      var _ := store.SaveApiKey(newApiKey, id, now);
      LoadApiKeys();
      return true;
    }

    /** `handleToggleActive`: writes `!currentActive` into the record with the id, then reloads. */
    method HandleToggleActive(id: string, currentActive: bool)
      modifies this, store
      ensures match UpdateFirst(old(store.GetApiKeys()), ApiKeyIdIs(id), ApiKeyMerger(ActiveUpdate(!currentActive)))
        case None => store.local == old(store.local)
        case Some(keys) => store.local == old(store.local)[API_KEYS_KEY := Json(ApiKeyList(keys))]
      ensures apiKeys == store.GetApiKeys() && showKeys == old(showKeys)
    {
      var _ := store.UpdateApiKey(id, ActiveUpdate(!currentActive));
      LoadApiKeys();
    }

    /**
     * `handleDeleteKey`: deletes and reloads only when the user confirmed; a confirmed delete
     * of an id no record has leaves the stored map as it was.
     */
    method HandleDeleteKey(id: string, confirmed: bool)
      modifies this, store
      ensures !confirmed ==> store.local == old(store.local) && apiKeys == old(apiKeys)
      ensures confirmed && (exists i :: 0 <= i < |old(store.GetApiKeys())| && old(store.GetApiKeys())[i].id == id) ==>
        store.local == old(store.local)[API_KEYS_KEY := Json(ApiKeyList(Filter(old(store.GetApiKeys()), ApiKeyIdIsNot(id))))]
      ensures confirmed && !(exists i :: 0 <= i < |old(store.GetApiKeys())| && old(store.GetApiKeys())[i].id == id) ==>
        store.local == old(store.local)
      ensures confirmed ==> store.GetApiKeys() == Filter(old(store.GetApiKeys()), ApiKeyIdIsNot(id))
      ensures confirmed ==> apiKeys == store.GetApiKeys()
      ensures showKeys == old(showKeys)
    {
      if confirmed {
        var deleted := store.DeleteApiKey(id);
        if !deleted {
          FilterAll(old(store.GetApiKeys()), ApiKeyIdIsNot(id));
        }
        LoadApiKeys();
      }
    }

    /** `toggleShowKey`: flips the show flag of one key. */
    method ToggleShowKey(id: string)
      modifies this
      ensures showKeys == ToggleShow(old(showKeys), id) && apiKeys == old(apiKeys)
    {
      showKeys := ToggleShow(showKeys, id);
    }
  }
}
