/** The per-conversation selected-model store: `selectedModels` and
    `isHydrated` maps, a copy of the selection kept in the browser's local
    storage under one key, and a background sync to the `conversations`
    table that is skipped for empty and provisional (`temp-`) ids.

    The background fetches of `hydrateModel` resolve later; the model splits
    each call into the synchronous part (`HydrateModel`, which returns what
    is still pending) and the callback (`Resolve`, given the store's answer),
    so that other calls may come in between as they can in the browser. */
module ConversationModelStore {
  import opened Common
  import opened ConversationCache

  /** The local-storage slot: never written, holding text that does not
      parse, or holding a parsed id-to-model map. */
  datatype LocalSlot = Absent | Unparseable | Stored(models: map<string, string>)

  /** `getLocalMap`: a missing slot reads as `'{}'` and an unparseable one
      is caught; both give the empty map. */
  function GetLocalMap(slot: LocalSlot): (m: map<string, string>)
    ensures slot.Stored? ==> m == slot.models
    ensures !slot.Stored? ==> m == map[]
  {
    if slot.Stored? then slot.models else map[]
  }

  /** `map[conversationId]` when it is truthy. */
  function LocalModel(slot: LocalSlot, id: string): (r: Option<string>)
    ensures r.Some? <==> id in GetLocalMap(slot) && GetLocalMap(slot)[id] != ""
    ensures r.Some? ==> r.value == GetLocalMap(slot)[id] && r.value != ""
  {
    var m := GetLocalMap(slot);
    if id in m && m[id] != "" then Some(m[id]) else None
  }

  /** The guard of both remote calls: the id is non-empty and not
      provisional. */
  predicate RemoteAllowed(id: string) {
    id != "" && !(TEMP_PREFIX <= id)
  }

  /** `fetchModelFromSupabase`: `stored` is the `model` column of the row
      with that id, or None when the query errs or finds no row. The result
      is None for a provisional or empty id without asking the store, and an
      empty stored model also reads as None. */
  function FetchModel(id: string, stored: Option<string>): (r: Option<string>)
    ensures !RemoteAllowed(id) ==> r.None?
    ensures r.Some? <==> RemoteAllowed(id) && stored.Some? && stored.value != ""
    ensures r.Some? ==> r == stored
  {
    if !RemoteAllowed(id) then None
    else if stored.Some? && stored.value != "" then stored
    else None
  }

  /** The update `syncModelToSupabase` sends. */
  datatype SyncRequest = SyncRequest(id: string, model: string)

  function SyncFor(id: string, model: string): (r: Option<SyncRequest>)
    ensures r.Some? <==> RemoteAllowed(id)
    ensures r.Some? ==> r.value == SyncRequest(id, model)
  {
    if RemoteAllowed(id) then Some(SyncRequest(id, model)) else None
  }

  /** What a `hydrateModel` call left to do when its fetch resolves. */
  datatype Pending =
    | NoFetch
    | OverrideIfDiffers(id: string, localModel: string)
    | SelectRemoteOrFallback(id: string, fallback: string)

  /** The model an unhydrated conversation ends up with once its fetch has
      resolved: the store's model first, then the local copy, then the
      fallback. */
  function Preferred(localModel: Option<string>, fetched: Option<string>, fallback: string): (m: string)
    ensures fetched.Some? ==> m == fetched.value
    ensures fetched.None? && localModel.Some? ==> m == localModel.value
    ensures fetched.None? && localModel.None? ==> m == fallback
  {
    if fetched.Some? then fetched.value
    else if localModel.Some? then localModel.value
    else fallback
  }

  class ModelStore {
    var selectedModels: map<string, string>
    var isHydrated: map<string, bool>
    var local: LocalSlot

    /** A fresh store over whatever local storage holds. */
    constructor (local: LocalSlot)
      ensures selectedModels == map[] && isHydrated == map[] && this.local == local
    {
      selectedModels := map[];
      isHydrated := map[];
      this.local := local;
    }

    /** `getModel`. */
    function GetModel(id: string): (r: Option<string>)
      reads this
      ensures r.Some? <==> id in selectedModels
      ensures r.Some? ==> r.value == selectedModels[id]
    {
      if id in selectedModels then Some(selectedModels[id]) else None
    }

    predicate Hydrated(id: string)
      reads this
    {
      id in isHydrated && isHydrated[id]
    }

    /** `setModel`: the selection for `id` becomes `model`, the local map
        gains the same entry, and the store is asked to update the row
        unless the id is empty or provisional. */
    method SetModel(id: string, model: string) returns (sync: Option<SyncRequest>)
      modifies this
      ensures selectedModels == old(selectedModels)[id := model]
      ensures GetModel(id) == Some(model)
      ensures isHydrated == old(isHydrated)
      ensures local == Stored(GetLocalMap(old(local))[id := model])
      ensures sync == SyncFor(id, model)
    {
      selectedModels := selectedModels[id := model];
      var m := GetLocalMap(local);
      m := m[id := model];
      local := Stored(m);
      sync := SyncFor(id, model);
    }

    /** The synchronous part of `hydrateModel`. Nothing happens for an id
        already hydrated. A truthy local copy is selected at once and marks
        the id hydrated; otherwise nothing changes until the fetch
        resolves. */
    method HydrateModel(id: string, fallback: string) returns (pending: Pending)
      modifies this
      ensures local == old(local)
      ensures old(Hydrated(id)) ==>
                pending == NoFetch && selectedModels == old(selectedModels) && isHydrated == old(isHydrated)
      ensures !old(Hydrated(id)) && LocalModel(local, id).Some? ==>
                var lm := LocalModel(local, id).value;
                pending == OverrideIfDiffers(id, lm) &&
                selectedModels == old(selectedModels)[id := lm] && isHydrated == old(isHydrated)[id := true]
      ensures !old(Hydrated(id)) && LocalModel(local, id).None? ==>
                pending == SelectRemoteOrFallback(id, fallback) &&
                selectedModels == old(selectedModels) && isHydrated == old(isHydrated)
    {
      if id in isHydrated && isHydrated[id] {
        return NoFetch;
      }
      var lm := LocalModel(local, id);
      if lm.Some? {
        selectedModels := selectedModels[id := lm.value];
        isHydrated := isHydrated[id := true];
        return OverrideIfDiffers(id, lm.value);
      }
      pending := SelectRemoteOrFallback(id, fallback);
    }

    /** The fetch callback, given the stored `model` column. After a local
        hit the remote model replaces the selection only when it is there
        and differs; without one the remote model or else the fallback is
        selected and the id is marked hydrated. */
    method Resolve(pending: Pending, stored: Option<string>)
      modifies this
      ensures local == old(local)
      ensures pending.NoFetch? ==> selectedModels == old(selectedModels) && isHydrated == old(isHydrated)
      ensures pending.OverrideIfDiffers? ==>
                var fetched := FetchModel(pending.id, stored);
                isHydrated == old(isHydrated) &&
                (fetched.Some? && fetched.value != pending.localModel ==>
                   selectedModels == old(selectedModels)[pending.id := fetched.value]) &&
                (fetched.None? || fetched.value == pending.localModel ==> selectedModels == old(selectedModels))
      ensures pending.SelectRemoteOrFallback? ==>
                var fetched := FetchModel(pending.id, stored);
                selectedModels == old(selectedModels)[pending.id := Preferred(None, fetched, pending.fallback)] &&
                isHydrated == old(isHydrated)[pending.id := true]
    {
      match pending
      case NoFetch =>
      case OverrideIfDiffers(id, lm) =>
        var fetched := FetchModel(id, stored);
        if fetched.Some? && fetched.value != lm {
          selectedModels := selectedModels[id := fetched.value];
        }
      case SelectRemoteOrFallback(id, fallback) =>
        var fetched := FetchModel(id, stored);
        selectedModels := selectedModels[id := if fetched.Some? then fetched.value else fallback];
        isHydrated := isHydrated[id := true];
    }

    /** A first `hydrateModel` whose fetch resolves before anything else
        happens: the id is hydrated and selects the store's model, else the
        local copy, else the fallback. */
    method HydrateAndResolve(id: string, fallback: string, stored: Option<string>)
      modifies this
      requires !Hydrated(id)
      ensures Hydrated(id)
      ensures GetModel(id) == Some(Preferred(LocalModel(local, id), FetchModel(id, stored), fallback))
      ensures forall k :: k != id ==> (k in selectedModels <==> k in old(selectedModels))
      ensures forall k :: k != id && k in selectedModels ==> selectedModels[k] == old(selectedModels[k])
    {
      var pending := HydrateModel(id, fallback);
      Resolve(pending, stored);
    }
  }
}
