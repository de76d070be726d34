/** The shared session store: the selected model and the session id, kept
    in two state cells and mirrored into the browser's local storage under
    two fixed keys, from which they are rehydrated when the page loads. */
module Session {
  import opened Values

  const ModelKey: string := "selectedModel"
  const SessionKey: string := "sessionId"
  const DefaultModel: string := "water_tank"

  /** Rehydrating `selectedModel`: the stored value, the default when the
      key is absent, also the default when storage throws. A stored empty
      string is kept (`??` replaces only null). */
  function RehydrateModel(items: map<string, string>, blocked: bool): (m: string)
    ensures blocked || ModelKey !in items ==> m == DefaultModel
    ensures !blocked && ModelKey in items ==> m == items[ModelKey]
  {
    if !blocked && ModelKey in items then items[ModelKey] else DefaultModel
  }

  /** Rehydrating `sessionId`: the stored value, or null. */
  function RehydrateSession(items: map<string, string>, blocked: bool): (sid: Option<string>)
    ensures blocked || SessionKey !in items ==> sid.None?
    ensures !blocked && SessionKey in items ==> sid == Some(items[SessionKey])
  {
    if !blocked && SessionKey in items then Some(items[SessionKey]) else None
  }

  /** The storage after the `selectedModel` effect: the model is written
      when it is non-empty; a throwing storage keeps its items. */
  function PersistModel(items: map<string, string>, blocked: bool, model: string): (r: map<string, string>)
    ensures forall k :: k != ModelKey ==> (k in r <==> k in items) && (k in items ==> r[k] == items[k])
    ensures !blocked && model != "" ==> ModelKey in r && r[ModelKey] == model
    ensures blocked || model == "" ==> r == items
  {
    if blocked || model == "" then items else items[ModelKey := model]
  }

  /** The storage after the `sessionId` effect: a non-empty id is written,
      a null or empty one removes the key (it never stores `"null"`). */
  function PersistSession(items: map<string, string>, blocked: bool, sid: Option<string>): (r: map<string, string>)
    ensures forall k :: k != SessionKey ==> (k in r <==> k in items) && (k in items ==> r[k] == items[k])
    ensures !blocked && Present(sid) ==> SessionKey in r && r[SessionKey] == sid.value
    ensures !blocked && !Present(sid) ==> SessionKey !in r
    ensures blocked ==> r == items
  {
    if blocked then items
    else if Present(sid) then items[SessionKey := sid.value]
    else items - {SessionKey}
  }

  /** What a reload gives back for a session id that was persisted:
      itself when non-empty, null otherwise. */
  function Reloaded(sid: Option<string>): Option<string>
  {
    if Present(sid) then sid else None
  }

  /** Persisting then rehydrating gives back the model and the session id,
      whatever the storage held before and in whichever order the two
      effects ran. */
  lemma PersistRoundTrip(items: map<string, string>, model: string, sid: Option<string>)
    requires model != ""
    ensures var after := PersistSession(PersistModel(items, false, model), false, sid);
      RehydrateModel(after, false) == model && RehydrateSession(after, false) == Reloaded(sid)
    ensures var after := PersistModel(PersistSession(items, false, sid), false, model);
      RehydrateModel(after, false) == model && RehydrateSession(after, false) == Reloaded(sid)
  {
    assert ModelKey != SessionKey;
  }

  /** Clearing the session and reloading gives null: the key is gone, so the
      reload cannot read back a `"null"` string. */
  lemma ClearedSessionReloadsNull(items: map<string, string>, blocked: bool)
    ensures RehydrateSession(PersistSession(items, blocked, None), blocked) == None
    ensures !blocked ==> SessionKey !in PersistSession(items, blocked, None)
  {
  }

  /** Each effect writes its own key only: persisting the model never moves
      the stored session id, and persisting the session never moves the
      stored model. */
  lemma EffectsAreIndependent(items: map<string, string>, blocked: bool, model: string, sid: Option<string>)
    ensures RehydrateSession(PersistModel(items, blocked, model), blocked) == RehydrateSession(items, blocked)
    ensures RehydrateModel(PersistSession(items, blocked, sid), blocked) == RehydrateModel(items, blocked)
  {
    assert ModelKey != SessionKey;
  }

  /** The browser's local storage. When `blocked`, every access throws
      (storage disabled or denied); the items then never change. */
  class LocalStorage {
    var items: map<string, string>
    const blocked: bool

    constructor (items: map<string, string>, blocked: bool)
      ensures this.items == items && this.blocked == blocked
    {
      this.items := items;
      this.blocked := blocked;
    }

    /** `getItem`: `None` when it throws, else the stored value or null. */
    method GetItem(key: string) returns (r: Option<Option<string>>)
      ensures blocked <==> r.None?
      ensures r.Some? ==> r.value == (if key in items then Some(items[key]) else None)
    {
      if blocked {
        return None;
      }
      r := Some(if key in items then Some(items[key]) else None);
    }

    /** `setItem`: false when it throws. */
    method SetItem(key: string, value: string) returns (ok: bool)
      modifies this`items
      ensures ok == !blocked
      ensures items == if blocked then old(items) else old(items)[key := value]
    {
      ok := !blocked;
      if ok {
        items := items[key := value];
      }
    }

    /** `removeItem`: false when it throws. */
    method RemoveItem(key: string) returns (ok: bool)
      modifies this`items
      ensures ok == !blocked
      ensures items == if blocked then old(items) else old(items) - {key}
    {
      ok := !blocked;
      if ok {
        items := items - {key};
      }
    }
  }

  /** `SessionProvider`: the two cells and the effects that mirror them into
      `storage`. Storage failures are swallowed; the cells update anyway. */
  class SessionProvider {
    var selectedModel: string
    var sessionId: Option<string>
    const storage: LocalStorage

    /** The stored items reload as the two cells (an empty model cell is
        not written, so it is exempt). */
    predicate Synced()
      reads this, storage
    {
      !storage.blocked ==>
        && (selectedModel != "" ==> RehydrateModel(storage.items, false) == selectedModel)
        && RehydrateSession(storage.items, false) == Reloaded(sessionId)
    }

    /** The `selectedModel` effect. */
    method PersistModelEffect()
      modifies storage`items
      ensures storage.items == PersistModel(old(storage.items), storage.blocked, selectedModel)
    {
      if selectedModel != "" {
        var _ := storage.SetItem(ModelKey, selectedModel);
      }
    }

    /** The `sessionId` effect. */
    method PersistSessionEffect()
      modifies storage`items
      ensures storage.items == PersistSession(old(storage.items), storage.blocked, sessionId)
    {
      if Present(sessionId) {
        var _ := storage.SetItem(SessionKey, sessionId.value);
      } else {
        var _ := storage.RemoveItem(SessionKey);
      }
    }

    /** Page load: both cells are rehydrated from `storage`, then both
        effects run once. */
    constructor (storage: LocalStorage)
      modifies storage`items
      ensures this.storage == storage
      ensures selectedModel == RehydrateModel(old(storage.items), storage.blocked)
      ensures sessionId == RehydrateSession(old(storage.items), storage.blocked)
      ensures storage.items
                == PersistSession(PersistModel(old(storage.items), storage.blocked, selectedModel),
                                  storage.blocked, sessionId)
      ensures Synced()
    {
      this.storage := storage;
      var m := storage.GetItem(ModelKey);
      selectedModel := if m.Some? && m.value.Some? then m.value.value else DefaultModel;
      var s := storage.GetItem(SessionKey);
      sessionId := if s.Some? then s.value else None;
      new;
      PersistModelEffect();
      PersistSessionEffect();
      assert ModelKey != SessionKey;
    }

    /** `setSelectedModel`. The effect runs when the value changed; the
        session id is left as it is. */
    method SetSelectedModel(model: string)
      modifies this`selectedModel, storage`items
      ensures selectedModel == model && sessionId == old(sessionId)
      ensures storage.items
                == if model == old(selectedModel) then old(storage.items)
                   else PersistModel(old(storage.items), storage.blocked, model)
      ensures old(Synced()) ==> Synced()
    {
      if model != selectedModel {
        selectedModel := model;
        PersistModelEffect();
        assert ModelKey != SessionKey;
      }
    }

    /** `setSessionId`. The effect runs when the value changed. */
    method SetSessionId(sid: Option<string>)
      modifies this`sessionId, storage`items
      ensures sessionId == sid && selectedModel == old(selectedModel)
      ensures storage.items
                == if sid == old(sessionId) then old(storage.items)
                   else PersistSession(old(storage.items), storage.blocked, sid)
      ensures old(Synced()) ==> Synced()
    {
      if sid != sessionId {
        sessionId := sid;
        PersistSessionEffect();
        assert ModelKey != SessionKey;
      }
    }
  }

  /** A page reload over the same storage: a new provider rehydrates the
      model and the session id that the old one held. */
  method Reload(p: SessionProvider) returns (q: SessionProvider)
    requires p.Synced() && !p.storage.blocked && p.selectedModel != ""
    modifies p.storage`items
    ensures fresh(q) && q.storage == p.storage
    ensures q.selectedModel == p.selectedModel && q.sessionId == Reloaded(p.sessionId)
  {
    q := new SessionProvider(p.storage);
  }
}
