/** The step controls of one simulation session: the per-model bounds of the
    control input, the clamp applied when the model changes, the step and
    time fields read back from a state snapshot, and the step operation with
    its bounded retry and exponential backoff. */
module StepControls {
  import opened Values

  /** Bounds of the control input for one model. */
  datatype Config = Config(min: real, max: real, step: real, default: real, unit: Option<string>)

  /** The bounds used for a model that has no entry of its own. */
  const Fallback: Config := Config(-100.0, 100.0, 1.0, 0.0, None)

  /** The bounds table lookup, falling back for a null, empty or unknown model. */
  function ConfigFor(model: Option<string>): (c: Config)
    ensures model == Some("water_tank") ==>
              c.min == 0.0 && c.max == 100.0 && c.step == 1.0 && c.default == 0.0 && c.unit == Some("L/s")
    ensures model == Some("room_temperature") ==>
              c.min == -10.0 && c.max == 40.0 && c.step == 0.1 && c.default == 0.0 && c.unit == Some("°C")
    ensures model != Some("water_tank") && model != Some("room_temperature") ==>
              c.min == -100.0 && c.max == 100.0 && c.step == 1.0 && c.default == 0.0 && c.unit.None?
  {
    if model == Some("water_tank") then Config(0.0, 100.0, 1.0, 0.0, Some("L/s"))
    else if model == Some("room_temperature") then Config(-10.0, 40.0, 0.1, 0.0, Some("°C"))
    else Fallback
  }

  /** Every entry of the table, the fallback included, is a non-empty range
      with a positive step that holds its default. */
  lemma ConfigWellFormed(model: Option<string>)
    ensures var c := ConfigFor(model); c.min <= c.default <= c.max && c.step > 0.0
  {
  }

  function Min(a: real, b: real): real { if a <= b then a else b }
  function Max(a: real, b: real): real { if a >= b then a else b }

  /** `Math.min(max, Math.max(min, v))` */
  function Clamp(v: real, c: Config): (r: real)
    ensures c.min <= c.max ==> c.min <= r <= c.max
    ensures c.min <= v <= c.max ==> r == v
    ensures v > c.max ==> r == c.max
    ensures c.min <= c.max && v < c.min ==> r == c.min
  {
    Min(c.max, Max(c.min, v))
  }

  /** Clamping twice is clamping once, for every table entry. */
  lemma ClampIdempotent(v: real, model: Option<string>)
    ensures var c := ConfigFor(model); Clamp(Clamp(v, c), c) == Clamp(v, c)
  {
    ConfigWellFormed(model);
  }

  // ---------------------------------------------------------------------
  // Step and time fields of a snapshot

  /** The aliases in the order the extractor visits them. */
  const MaybeKeys: seq<string> := ["step", "step_count", "time", "t", "simulation_time"]
  const StepAliases: set<string> := {"step", "step_count"}
  const TimeAliases: set<string> := {"time", "t", "simulation_time"}

  /** The number stored under `k`, if `k` is present and holds a number. */
  function NumAt(s: Snapshot, k: string): Option<real>
  {
    if k in s && s[k].Num? then Some(s[k].n) else None
  }

  /** The number held by the LAST key of `keys` that belongs to `category`
      and holds a number in `s`. */
  function LastNumeric(s: Snapshot, keys: seq<string>, category: set<string>): Option<real>
    decreases |keys|
  {
    if keys == [] then None
    else
      var k := keys[|keys| - 1];
      if k in category && NumAt(s, k).Some? then NumAt(s, k)
      else LastNumeric(s, keys[..|keys| - 1], category)
  }

  /** `a` when it is present, else `b`. */
  function Prefer(a: Option<real>, b: Option<real>): Option<real>
  {
    if a.Some? then a else b
  }

  /** The step counter read from a fetched state (absent for a null state). */
  function StepOf(state: Option<Snapshot>): Option<real>
  {
    if state.None? then None else LastNumeric(state.value, MaybeKeys, StepAliases)
  }

  /** The simulation time read from a fetched state (absent for a null state). */
  function TimeOf(state: Option<Snapshot>): Option<real>
  {
    if state.None? then None else LastNumeric(state.value, MaybeKeys, TimeAliases)
  }

  /** LastNumeric finds a number exactly when some key of the category holds
      one, and the number it finds is that of the last such key. */
  lemma {:induction false} LastNumericIsLast(s: Snapshot, keys: seq<string>, category: set<string>)
    ensures LastNumeric(s, keys, category).None? <==>
              forall j :: 0 <= j < |keys| && keys[j] in category ==> NumAt(s, keys[j]).None?
    ensures LastNumeric(s, keys, category).Some? ==>
              exists j :: 0 <= j < |keys| && keys[j] in category
                && NumAt(s, keys[j]) == LastNumeric(s, keys, category)
                && forall j' :: j < j' < |keys| && keys[j'] in category ==> NumAt(s, keys[j']).None?
    decreases |keys|
  {
    if keys != [] {
      var n := |keys| - 1;
      var init := keys[..n];
      LastNumericIsLast(s, init, category);
      assert forall j :: 0 <= j < n ==> init[j] == keys[j];
      if keys[n] in category && NumAt(s, keys[n]).Some? {
        assert NumAt(s, keys[n]) == LastNumeric(s, keys, category);
      } else if LastNumeric(s, init, category).Some? {
        var j :| 0 <= j < n && init[j] in category
                 && NumAt(s, init[j]) == LastNumeric(s, init, category)
                 && forall j' :: j < j' < n && init[j'] in category ==> NumAt(s, init[j']).None?;
        assert keys[j] == init[j];
      }
    }
  }

  /** Over the fixed alias list a later alias overrides an earlier one:
      `step_count` over `step`, and `simulation_time` over `t` over `time`. */
  lemma LaterAliasWins(s: Snapshot)
    ensures LastNumeric(s, MaybeKeys, StepAliases) == Prefer(NumAt(s, "step_count"), NumAt(s, "step"))
    ensures LastNumeric(s, MaybeKeys, TimeAliases)
              == Prefer(NumAt(s, "simulation_time"), Prefer(NumAt(s, "t"), NumAt(s, "time")))
  {
    var k4, k3, k2, k1 := MaybeKeys[..4], MaybeKeys[..3], MaybeKeys[..2], MaybeKeys[..1];
    assert k4[..3] == k3 && k3[..2] == k2 && k2[..1] == k1 && k1[..0] == [];
    assert MaybeKeys[4] == "simulation_time" && k4[3] == "t" && k3[2] == "time";
    assert k2[1] == "step_count" && k1[0] == "step";
    assert LastNumeric(s, k1, StepAliases) == NumAt(s, "step");
    assert LastNumeric(s, k2, StepAliases) == Prefer(NumAt(s, "step_count"), NumAt(s, "step"));
    assert "step" !in TimeAliases && "step_count" !in TimeAliases;
    assert LastNumeric(s, k1, TimeAliases) == None;
    assert LastNumeric(s, k2, TimeAliases) == None;
    assert LastNumeric(s, k3, TimeAliases) == NumAt(s, "time");
    assert LastNumeric(s, k4, TimeAliases) == Prefer(NumAt(s, "t"), NumAt(s, "time"));
  }

  /** `extractStepAndTime`: visit the aliases in order and let every
      numeric one overwrite the field of its category. It only reads the
      snapshot. */
  method ExtractStepAndTime(state: Option<Snapshot>) returns (step: Option<real>, time: Option<real>)
    ensures step == StepOf(state) && time == TimeOf(state)
    ensures state.None? ==> step.None? && time.None?
    ensures state.Some? ==> step == Prefer(NumAt(state.value, "step_count"), NumAt(state.value, "step"))
    ensures state.Some? ==> time == Prefer(NumAt(state.value, "simulation_time"),
                                           Prefer(NumAt(state.value, "t"), NumAt(state.value, "time")))
  {
    if state.None? {
      return None, None;
    }
    var s := state.value;
    step, time := None, None;
    for i := 0 to |MaybeKeys|
      invariant step == LastNumeric(s, MaybeKeys[..i], StepAliases)
      invariant time == LastNumeric(s, MaybeKeys[..i], TimeAliases)
    {
      var k := MaybeKeys[i];
      assert MaybeKeys[..i + 1][..i] == MaybeKeys[..i];
      if k !in s {
        continue;
      }
      var v := s[k];
      if (k == "step" || k == "step_count") && v.Num? {
        step := Some(v.n);
      }
      if (k == "time" || k == "t" || k == "simulation_time") && v.Num? {
        time := Some(v.n);
      }
    }
    assert MaybeKeys[..|MaybeKeys|] == MaybeKeys;
    LaterAliasWins(s);
  }

  // ---------------------------------------------------------------------
  // The step operation

  /** How many times one run calls `stepSimulation` at most. */
  const MaxRetries: nat := 3

  function Pow2(k: nat): (r: nat)
    ensures r >= 1
  {
    if k == 0 then 1 else 2 * Pow2(k - 1)
  }

  /** The wait after the `attempt`-th failure (counted from 1): `200 * 2^(attempt-1)` ms. */
  function Backoff(attempt: nat): (ms: nat)
    requires attempt >= 1
    ensures ms >= 200
  {
    200 * Pow2(attempt - 1)
  }

  /** Each backoff doubles the previous one, starting at 200 ms. */
  lemma BackoffDoubles(attempt: nat)
    requires attempt >= 1
    ensures Backoff(1) == 200 && Backoff(attempt + 1) == 2 * Backoff(attempt)
  {
  }

  /** The outcome of one call to `stepSimulation`: it succeeded (and then
      the follow-up `getState` had the given outcome), or it threw. */
  datatype Attempt =
    | Stepped(refresh: Fetch)
    | StepFailed(err: Thrown)

  class SimulationControls {
    const sessionId: string
    var selectedModel: Option<string>
    var loading: bool
    var error: Option<string>
    var stepCount: Option<real>
    var simTime: Option<real>
    var controlValue: real
    /** How many times the `onRefresh` callback has been invoked. */
    var refreshCalls: nat

    /** The control bounds of the current model. */
    function Bounds(): Config
      reads this
    {
      ConfigFor(selectedModel)
    }

    /** The Retry button is shown exactly when the error cell is truthy. */
    predicate RetryVisible()
      reads this
    {
      Present(error)
    }

    /** First render: the control starts at the model's default, which the
        mount-time clamp leaves as it is. */
    constructor (sessionId: string, selectedModel: Option<string>)
      ensures this.sessionId == sessionId && this.selectedModel == selectedModel
      ensures controlValue == ConfigFor(selectedModel).default
      ensures !loading && error.None? && stepCount.None? && simTime.None? && refreshCalls == 0
    {
      this.sessionId := sessionId;
      this.selectedModel := selectedModel;
      ConfigWellFormed(selectedModel);
      controlValue := Clamp(ConfigFor(selectedModel).default, ConfigFor(selectedModel));
      loading, error, stepCount, simTime, refreshCalls := false, None, None, None, 0;
    }

    /** The slider or the number box sets the control value as typed; the
        number box does not enforce the bounds. */
    method SetControlValue(v: real)
      modifies this`controlValue
      ensures controlValue == v
    {
      controlValue := v;
    }

    /** A new `selectedModel` prop. The clamp effect runs only when the
        model differs from the previous one (the bounds are a function of
        the model): the control value is then clamped into the new bounds,
        and left as it is when it already lies inside them. */
    method SelectModel(model: Option<string>)
      modifies this`selectedModel, this`controlValue
      ensures selectedModel == model
      ensures model == old(selectedModel) ==> controlValue == old(controlValue)
      ensures model != old(selectedModel) ==> Bounds().min <= controlValue <= Bounds().max
      ensures model != old(selectedModel) && Bounds().min <= old(controlValue) <= Bounds().max ==>
                controlValue == old(controlValue)
      ensures model != old(selectedModel) ==> controlValue == Clamp(old(controlValue), ConfigFor(model))
    {
      if model != selectedModel {
        selectedModel := model;
        ConfigWellFormed(model);
        controlValue := Clamp(controlValue, Bounds());
      }
    }

    /** What one run of `step()` leaves behind, given the outcomes of its
        calls (`attempts`), the number of calls it made and their
        arguments, the waits it
        scheduled and the error it kept last. */
    twostate predicate StepEffect(attempts: seq<Attempt>, calls: nat, new sent: seq<(string, real)>, delays: seq<nat>,
                                  new lastError: Option<Thrown>)
      reads this
    {
      && |attempts| >= MaxRetries
      && 1 <= calls <= MaxRetries
      // every call sends the session id and the current control value
      && |sent| == calls && (forall i :: 0 <= i < |sent| ==> sent[i] == (sessionId, controlValue))
      && |delays| <= MaxRetries
      // every wait follows a failed call, and the k-th wait is 200 * 2^(k-1) ms
      && (forall k :: 0 <= k < |delays| ==> attempts[k].StepFailed? && delays[k] == Backoff(k + 1))
      && !loading
      && selectedModel == old(selectedModel) && controlValue == old(controlValue)
      // three failures: three calls and three waits; the third error is kept,
      // and shown when it is truthy
      && (|delays| == MaxRetries ==>
            && calls == MaxRetries
            && lastError == Some(attempts[MaxRetries - 1].err)
            && error == (if Truthy(lastError.value) then Some(Message(lastError.value)) else None)
            && refreshCalls == old(refreshCalls)
            && stepCount == old(stepCount) && simTime == old(simTime))
      // otherwise the call after the last failure succeeded and ended the run
      && (|delays| < MaxRetries ==>
            && calls == |delays| + 1
            && attempts[|delays|].Stepped?
            && lastError.None?
            && error.None?
            && refreshCalls == old(refreshCalls) + 1
            && match attempts[|delays|].refresh
               case Fetched(st) => stepCount == StepOf(st) && simTime == TimeOf(st)
               case FetchFailed(_) => stepCount == old(stepCount) && simTime == old(simTime))
    }

    /** `step()`: call `stepSimulation` up to three times, waiting after
        every failure, the third included; on the first success refresh
        step and time from `getState` (its failure is ignored), call
        `onRefresh` and stop. The error cell is cleared on entry and set
        from the last error only when every call failed and that error is
        truthy. `attempts[i]` is the outcome of the i-th call. */
    method Step(attempts: seq<Attempt>) returns (calls: nat, sent: seq<(string, real)>, delays: seq<nat>,
                                                 lastError: Option<Thrown>)
      requires |attempts| >= MaxRetries
      modifies this`loading, this`error, this`stepCount, this`simTime, this`refreshCalls
      ensures StepEffect(attempts, calls, sent, delays, lastError)
    {
      loading := true;
      error := None;
      var attempt: nat := 0;
      lastError := None;
      calls, sent, delays := 0, [], [];
      while attempt < MaxRetries
        invariant attempt <= MaxRetries && calls == attempt && |delays| == attempt
        invariant |sent| == calls && forall i :: 0 <= i < |sent| ==> sent[i] == (sessionId, controlValue)
        invariant forall k :: 0 <= k < attempt ==> attempts[k].StepFailed? && delays[k] == Backoff(k + 1)
        invariant lastError == if attempt == 0 then None else Some(attempts[attempt - 1].err)
        invariant loading && error.None?
        invariant stepCount == old(stepCount) && simTime == old(simTime) && refreshCalls == old(refreshCalls)
      {
        calls := calls + 1;
        sent := sent + [(sessionId, controlValue)];
        match attempts[attempt]
        case Stepped(refresh) =>
          match refresh {
            case Fetched(st) =>
              var sc, t := ExtractStepAndTime(st);
              stepCount := sc;
              simTime := t;
            case FetchFailed(_) =>
          }
          refreshCalls := refreshCalls + 1;
          lastError := None;
          break;
        case StepFailed(err) =>
          lastError := Some(err);
          attempt := attempt + 1;
          delays := delays + [Backoff(attempt)];
      }
      if lastError.Some? && Truthy(lastError.value) {
        error := Some(Message(lastError.value));
      }
      loading := false;
    }

    /** The Retry button next to a shown error starts a whole new run from
        the first attempt; it does not resume the previous one. */
    method Retry(attempts: seq<Attempt>) returns (calls: nat, sent: seq<(string, real)>, delays: seq<nat>,
                                                  lastError: Option<Thrown>)
      requires RetryVisible()
      requires |attempts| >= MaxRetries
      modifies this`loading, this`error, this`stepCount, this`simTime, this`refreshCalls
      ensures StepEffect(attempts, calls, sent, delays, lastError)
      ensures |delays| > 0 ==> delays[0] == 200
    {
      calls, sent, delays, lastError := Step(attempts);
    }
  }

  /** Two failures then a success: three calls, waits of 200 and 400 ms,
      no error shown and one refresh. */
  method FailFailSucceed(c: SimulationControls) returns (calls: nat, delays: seq<nat>)
    modifies c
    ensures calls == 3 && delays == [200, 400]
    ensures c.error.None? && c.refreshCalls == old(c.refreshCalls) + 1 && !c.loading
  {
    var attempts := [StepFailed(ErrorObject("First failure")), StepFailed(ErrorObject("Second failure")),
                     Stepped(Fetched(Some(map[])))];
    var sent, lastError;
    calls, sent, delays, lastError := c.Step(attempts);
    assert attempts[2].Stepped?;
    assert |delays| == 2;
  }

  /** Three failures: three calls, a wait after each (the last one too), and
      the last message shown with the Retry button. */
  method AlwaysFailing(c: SimulationControls) returns (calls: nat, delays: seq<nat>)
    modifies c
    ensures calls == 3 && delays == [200, 400, 800]
    ensures c.error == Some("Persistent error") && c.RetryVisible()
    ensures c.refreshCalls == old(c.refreshCalls) && !c.loading
  {
    var e := StepFailed(ErrorObject("Persistent error"));
    var sent, lastError;
    calls, sent, delays, lastError := c.Step([e, e, e]);
    assert |delays| == 3;
  }

  /** The control set to 25 and a step that succeeds at once: exactly one
      call, carrying the session id and 25. */
  method StepSendsControlValue(c: SimulationControls) returns (sent: seq<(string, real)>)
    modifies c
    ensures sent == [(c.sessionId, 25.0)]
    ensures c.controlValue == 25.0 && c.error.None? && !c.loading
  {
    c.SetControlValue(25.0);
    var ok := Stepped(Fetched(None));
    var calls, delays, lastError;
    calls, sent, delays, lastError := c.Step([ok, ok, ok]);
    assert [ok, ok, ok][0].Stepped?;
    assert |delays| == 0;
  }
}
