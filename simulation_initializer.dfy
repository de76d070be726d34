/** The initialization form: how the parameters for a new session are
    chosen from the structured initial value or the advanced JSON text, the
    two validation errors, and what a successful or failed initialization
    writes into the form and into the shared session store. */
module Init {
  import opened Values
  import Session

  const InvalidJson: string := "Invalid JSON in parameters"
  const NotAnObject: string := "Parameters must be a JSON object"

  /** The characters `String.prototype.trim` removes: white space and line
      terminators. */
  predicate IsJsSpace(c: char)
  {
    || c == '\t' || c == '\n' || c == '\U{000B}' || c == '\U{000C}' || c == '\r' || c == ' '
    || c == '\U{00A0}' || c == '\U{1680}' || ('\U{2000}' <= c <= '\U{200A}')
    || c == '\U{2028}' || c == '\U{2029}' || c == '\U{202F}' || c == '\U{205F}' || c == '\U{3000}'
    || c == '\U{FEFF}'
  }

  /** `text.trim() === ''` */
  predicate IsBlank(text: string)
  {
    forall i :: 0 <= i < |text| ==> IsJsSpace(text[i])
  }

  /** The parameters resolved for `initSimulation` (an object or null), or
      the validation message that stops the form. */
  datatype Resolution = Params(params: Option<Snapshot>) | Invalid(msg: string)

  /** Structured input wins; otherwise non-blank text must parse (`parse`
      stands for `JSON.parse`, `None` when it throws) to a JSON object,
      which is passed on unchanged. */
  function ResolveParams(initialValue: Option<real>, text: string, parse: string -> Option<Value>): (r: Resolution)
    ensures initialValue.Some? ==> r == Params(Some(map["initial" := Num(initialValue.value)]))
    ensures initialValue.None? && IsBlank(text) ==> r == Params(None)
    ensures initialValue.None? && !IsBlank(text) ==>
              match parse(text)
              case None => r == Invalid(InvalidJson)
              case Some(Obj(fields)) => r == Params(Some(fields))
              case Some(_) => r == Invalid(NotAnObject)
  {
    if initialValue.Some? then Params(Some(map["initial" := Num(initialValue.value)]))
    else if IsBlank(text) then Params(None)
    else
      match parse(text)
      case None => Invalid(InvalidJson)
      case Some(v) => if v.Obj? then Params(Some(v.fields)) else Invalid(NotAnObject)
  }

  /** Only two messages stop the form, and they stop it exactly when no
      structured value is given and non-blank text is not a JSON object. */
  lemma ValidationErrors(initialValue: Option<real>, text: string, parse: string -> Option<Value>)
    ensures var r := ResolveParams(initialValue, text, parse);
      r.Invalid? <==> initialValue.None? && !IsBlank(text) && !(parse(text).Some? && parse(text).value.Obj?)
    ensures var r := ResolveParams(initialValue, text, parse);
      r.Invalid? ==> r.msg == InvalidJson || r.msg == NotAnObject
  {
  }

  /** A structured value makes the JSON text irrelevant, however malformed. */
  lemma StructuredValueWins(v: real, text1: string, text2: string, parse: string -> Option<Value>)
    ensures ResolveParams(Some(v), text1, parse) == ResolveParams(Some(v), text2, parse)
  {
  }

  /** The outcome of the `initSimulation` call: the new session id, or what
      it threw. */
  datatype InitOutcome = Initialized(sessionId: string) | InitFailed(err: Thrown)

  class SimulationInitializer {
    const modelName: string
    /** The shared store that `setSessionId` writes to. */
    const session: Session.SessionProvider
    var paramsText: string
    var initialValue: Option<real>
    var loading: bool
    var error: Option<string>
    var localSessionId: Option<string>

    constructor (modelName: string, session: Session.SessionProvider)
      ensures this.modelName == modelName && this.session == session
      ensures paramsText == "" && initialValue.None? && !loading && error.None? && localSessionId.None?
    {
      this.modelName := modelName;
      this.session := session;
      paramsText, initialValue, loading, error, localSessionId := "", None, false, None, None;
    }

    /** The text shown beside the button: the local id, else the shared one. */
    function SessionLine(): (line: Option<string>)
      reads this, session
      ensures line.Some? <==> Present(localSessionId) || Present(session.sessionId)
      ensures line.Some? ==> line.value == (if localSessionId.Some? then localSessionId.value else session.sessionId.value)
    {
      if Present(localSessionId) || Present(session.sessionId) then
        Some(if localSessionId.Some? then localSessionId.value else session.sessionId.value)
      else None
    }

    /** `handleInit`. The error is cleared on entry. A validation message
        ends the handler with no call made. Otherwise `initSimulation` is
        called once with `(modelName, params)` (returned as `sent`); on
        success the local and the shared session id become the new id and
        `onInit` receives it (`notified`), and the session line shows it;
        on failure the error becomes the
        message. Loading is false at the end. */
    method HandleInit(parse: string -> Option<Value>, outcome: InitOutcome)
      returns (sent: Option<(string, Option<Snapshot>)>, notified: Option<string>)
      modifies this`error, this`loading, this`localSessionId, session`sessionId, session.storage`items
      ensures var r := ResolveParams(initialValue, paramsText, parse);
        r.Invalid? ==>
          && sent.None? && notified.None?
          && error == Some(r.msg)
          && loading == old(loading) && localSessionId == old(localSessionId)
          && session.sessionId == old(session.sessionId) && session.storage.items == old(session.storage.items)
      ensures var r := ResolveParams(initialValue, paramsText, parse);
        r.Params? ==>
          && sent == Some((modelName, r.params))
          && !loading
          && match outcome
             case Initialized(id) =>
               && error.None? && notified == Some(id)
               && localSessionId == Some(id) && session.sessionId == Some(id)
               && SessionLine() == (if id != "" then Some(id) else None)
               && session.storage.items
                    == if Some(id) == old(session.sessionId) then old(session.storage.items)
                       else Session.PersistSession(old(session.storage.items), session.storage.blocked, Some(id))
             case InitFailed(e) =>
               && error == Some(Message(e)) && notified.None?
               && localSessionId == old(localSessionId)
               && session.sessionId == old(session.sessionId) && session.storage.items == old(session.storage.items)
      ensures session.selectedModel == old(session.selectedModel)
      ensures old(session.Synced()) ==> session.Synced()
    {
      error := None;
      sent, notified := None, None;
      var r := ResolveParams(initialValue, paramsText, parse);
      if r.Invalid? {
        error := Some(r.msg);
        return;
      }
      loading := true;
      sent := Some((modelName, r.params));
      match outcome {
        case Initialized(id) =>
          localSessionId := Some(id);
          session.SetSessionId(Some(id));
          notified := Some(id);
        case InitFailed(e) =>
          error := Some(Message(e));
      }
      loading := false;
    }
  }

  /** Initial value 10 for `water_tank`, answered with `session-123`: the
      call carries `{initial: 10}`, both session ids become `session-123`
      and the session line shows it, whatever the JSON text holds. */
  method InitWithInitialValue(f: SimulationInitializer, parse: string -> Option<Value>)
      returns (sent: Option<(string, Option<Snapshot>)>)
    requires f.modelName == "water_tank" && f.session.Synced()
    modifies f, f.session, f.session.storage
    ensures sent == Some(("water_tank", Some(map["initial" := Num(10.0)])))
    ensures f.localSessionId == Some("session-123") && f.session.sessionId == Some("session-123")
    ensures f.SessionLine() == Some("session-123")
    ensures !f.session.storage.blocked ==>
              Session.RehydrateSession(f.session.storage.items, false) == Some("session-123")
  {
    f.initialValue := Some(10.0);
    var notified;
    sent, notified := f.HandleInit(parse, Initialized("session-123"));
  }
}
