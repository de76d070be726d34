/** The current-state panel: the three cells it keeps (state, error,
    loading), how a fetch and a change of session update them, and which
    rendering it chooses. */
module StateView {
  import opened Values

  /** `isFlatObject`: a non-empty object whose every value is null, a
      string, a number or a boolean. */
  predicate IsFlatObject(obj: Snapshot)
  {
    |obj| > 0 && forall k :: k in obj ==> IsScalar(obj[k])
  }

  /** The empty object is never flat. */
  lemma EmptyIsNotFlat()
    ensures !IsFlatObject(map[])
  {
  }

  /** One nested value (an array or an object) anywhere makes the whole
      object not flat. */
  lemma NestedValueIsNotFlat(obj: Snapshot, k: string, v: Value)
    requires v.Arr? || v.Obj?
    ensures !IsFlatObject(obj[k := v])
  {
    assert k in obj[k := v];
  }

  /** Flatness is decided value by value: setting one field of a flat
      object keeps it flat exactly when the new value is a scalar. */
  lemma FlatUpdate(obj: Snapshot, k: string, v: Value)
    requires IsFlatObject(obj)
    ensures IsFlatObject(obj[k := v]) <==> IsScalar(v)
  {
    assert k in obj[k := v];
  }

  /** What the panel body shows. */
  datatype Body =
    | Table(rows: Snapshot)   // one row per field
    | RawJson(json: Snapshot) // the object pretty-printed
    | EmptyNotice             // "State is empty or unavailable."
    | NoBody

  datatype Panel =
    | NoSessionNotice                                        // "No active simulation session."
    | SessionPanel(errorLine: Option<string>, body: Body, refreshing: bool)

  class StateDisplay {
    var sessionId: Option<string>
    var state: Option<Snapshot>
    var loading: bool
    var error: Option<string>

    /** The first render with its mount effect: a session present starts a
        fetch (with outcome `mount`); without one the cells stay null. */
    constructor (sessionId: Option<string>, mount: Fetch)
      ensures this.sessionId == sessionId && !loading
      ensures !Present(sessionId) ==> state.None? && error.None?
      ensures Present(sessionId) ==> match mount
        case Fetched(st) => state == st && error.None?
        case FetchFailed(e) => state.None? && error == Some(Message(e))
    {
      this.sessionId := sessionId;
      state, loading, error := None, false, None;
      new;
      SessionEffect(mount);
    }

    /** `fetchState`, also the Refresh button: with no session nothing
        changes; otherwise the error is cleared, loading is set while the
        `getState` call (with outcome `outcome`) runs, the state becomes
        the response's state or null, or on failure the error becomes the
        message and the state null, and loading ends false. */
    method FetchState(outcome: Fetch)
      modifies this`state, this`loading, this`error
      ensures !Present(sessionId) ==>
                state == old(state) && loading == old(loading) && error == old(error)
      ensures Present(sessionId) ==> !loading && match outcome
        case Fetched(st) => state == st && error.None?
        case FetchFailed(e) => state.None? && error == Some(Message(e))
    {
      if !Present(sessionId) {
        return;
      }
      error := None;
      loading := true;
      match outcome {
        case Fetched(st) =>
          state := st;
        case FetchFailed(e) =>
          error := Some(Message(e));
          state := None;
      }
      loading := false;
    }

    /** The effect keyed on the session id: fetch for a session, otherwise
        reset both the state and the error to null. */
    method SessionEffect(outcome: Fetch)
      modifies this`state, this`loading, this`error
      ensures !Present(sessionId) ==> state.None? && error.None? && loading == old(loading)
      ensures Present(sessionId) ==> !loading && match outcome
        case Fetched(st) => state == st && error.None?
        case FetchFailed(e) => state.None? && error == Some(Message(e))
    {
      if Present(sessionId) {
        FetchState(outcome);
      } else {
        state := None;
        error := None;
      }
    }

    /** A new `sessionId` prop. The effect runs only when the id differs
        from the previous one. */
    method ChangeSession(sid: Option<string>, outcome: Fetch)
      modifies this
      ensures sessionId == sid
      ensures sid == old(sessionId) ==>
                state == old(state) && loading == old(loading) && error == old(error)
      ensures sid != old(sessionId) && !Present(sid) ==> state.None? && error.None? && loading == old(loading)
      ensures sid != old(sessionId) && Present(sid) ==> !loading && match outcome
        case Fetched(st) => state == st && error.None?
        case FetchFailed(e) => state.None? && error == Some(Message(e))
    {
      if sid != sessionId {
        sessionId := sid;
        SessionEffect(outcome);
      }
    }

    /** What the component renders. The error line shows only a non-empty
        error; the table is chosen exactly when there is no such error and
        the state is a flat object, raw JSON when the state is any other
        object. */
    function View(): (p: Panel)
      reads this
      ensures !Present(sessionId) <==> p.NoSessionNotice?
      ensures p.SessionPanel? ==> p.errorLine == (if Present(error) then error else None)
      ensures p.SessionPanel? ==> p.refreshing == loading
      ensures p.SessionPanel? ==>
                (p.body.Table? <==> !Present(error) && state.Some? && IsFlatObject(state.value))
      ensures p.SessionPanel? ==>
                (p.body.RawJson? <==> !Present(error) && state.Some? && !IsFlatObject(state.value))
      ensures p.SessionPanel? && p.body.Table? ==> p.body.rows == state.value
      ensures p.SessionPanel? && p.body.RawJson? ==> p.body.json == state.value
      ensures p.SessionPanel? ==> (p.body.EmptyNotice? <==> !Present(error) && state.None? && !loading)
    {
      if !Present(sessionId) then NoSessionNotice
      else
        var body :=
          if Present(error) then NoBody
          else if state.Some? then (if IsFlatObject(state.value) then Table(state.value) else RawJson(state.value))
          else if !loading then EmptyNotice
          else NoBody;
        SessionPanel(if Present(error) then error else None, body, loading)
    }
  }
}
