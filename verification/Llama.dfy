/** The llama.cpp router as a backend (`LlamaAdapter`, src/model_broker/llama.py). */
module Llama {
  import opened Wrappers
  import opened Polling

  /** A model's router status; a failed load is reported unloaded with `failed` set. */
  datatype ModelState = ModelState(value: string, failed: bool)

  datatype Fault = NoAnswer | Unlisted | Refused | LoadFailed | TimedOut

  datatype Operation = Load | Unload

  /** What was asked of the router, and how it answered; `Posted` says whether it accepted. */
  datatype Event =
    | Listed(states: map<string, ModelState>)
    | NotListed
    | Posted(operation: Operation, id: string, accepted: bool)
    | NotPosted(operation: Operation, id: string)

  /** The answer to one call: a listing or none, and whether it is an error. */
  datatype Answer = Answer(states: Option<map<string, ModelState>>, error: bool)

  class Router {
    const answers: nat -> Answer
    const delays: nat -> real
    var calls: nat
    var clock: real
    ghost var log: seq<Event>

    constructor (answers: nat -> Answer, delays: nat -> real)
      requires NeverBack(delays)
      ensures Valid() && log == []
    {
      this.answers, this.delays := answers, delays;
      calls, clock, log := 0, 0.0, [];
    }

    /** No call takes time back. */
    ghost predicate Valid()
      reads this
    {
      NeverBack(delays) && clock >= Elapsed(delays, calls)
    }

    method List() returns (states: Option<map<string, ModelState>>)
      requires Valid()
      modifies this
      ensures log == old(log) + [if states.Some? then Listed(states.value) else NotListed]
      ensures Valid() && clock >= old(clock) && calls > old(calls)
    {
      var answer := answers(calls);
      calls, clock := calls + 1, clock + delays(calls);
      states := answer.states;
      log := log + [if states.Some? then Listed(states.value) else NotListed];
    }

    method Post(operation: Operation, id: string) returns (accepted: Option<bool>)
      requires Valid()
      modifies this
      ensures log == old(log) + [if accepted.Some? then Posted(operation, id, accepted.value) else NotPosted(operation, id)]
      ensures Valid() && clock >= old(clock) && calls > old(calls)
    {
      var answer := answers(calls);
      calls, clock := calls + 1, clock + delays(calls);
      accepted := if answer.states.Some? then Some(!answer.error) else None;
      log := log + [if accepted.Some? then Posted(operation, id, accepted.value) else NotPosted(operation, id)];
    }

    method Sleep(seconds: real)
      requires Valid()
      modifies this
      ensures log == old(log) && clock >= old(clock) + seconds
      ensures Valid() && clock >= old(clock) && calls > old(calls)
    {
      var answer := answers(calls);
      calls, clock := calls + 1, clock + delays(calls) + if seconds > 0.0 then seconds else 0.0;
    }
  }

  datatype LlamaAdapter = LlamaAdapter(timeout: real, interval: real) {

    /** `model_state`, of one answer to a listing. */
    function StateIn(event: Event, id: string): Result<ModelState, Fault> {
      if !event.Listed? then Err(NoAnswer)
      else if id !in event.states then Err(Unlisted)
      else Ok(event.states[id])
    }

    /** What the wait loop makes of a reading: it has ended, or it goes on until the deadline. */
    function Verdict(event: Event, id: string, expected: string): Option<Result<(), Fault>> {
      var state := StateIn(event, id);
      if state.Err? then Some(Err(state.error))
      else if state.value.failed then Some(Err(LoadFailed))
      else if state.value.value == expected then Some(Ok(()))
      else None
    }

    ghost predicate Undecided(readings: seq<Event>, id: string, expected: string) {
      forall i | 0 <= i < |readings| :: Verdict(readings[i], id, expected).None?
    }

    /** How a wait that made these readings ends. */
    ghost predicate Waited(readings: seq<Event>, id: string, expected: string, r: Result<(), Fault>)
    {
      && readings != [] && (interval > 0.0 ==> |readings| <= MostReadings(timeout, interval))
      && Undecided(readings[..|readings| - 1], id, expected)
      && var verdict := Verdict(readings[|readings| - 1], id, expected);
      r == if verdict.Some? then verdict.value else Err(TimedOut)
    }

    lemma StillUndecided(before: seq<Event>, event: Event, id: string, expected: string)
      requires Undecided(before, id, expected) && Verdict(event, id, expected).None?
      ensures Undecided(before + [event], id, expected)
    {
    }

    /** Poll until the model reaches a state, its load has failed, or the time is up. */
    method WaitForState(w: Router, id: string, expected: string) returns (r: Result<(), Fault>, ghost readings: seq<Event>)
      requires w.Valid() && Polls(w.delays, interval)
      modifies w
      ensures w.log == old(w.log) + readings && Waited(readings, id, expected, r)
      ensures r == Err(TimedOut) ==> w.clock >= old(w.clock) + timeout
    {
      var started := w.clock;
      readings := [];
      ghost var deadline := started + timeout;
      if interval > 0.0 { StartsOnTime(timeout, interval); }
      while true
        invariant w.log == old(w.log) + readings && Undecided(readings, id, expected)
        invariant w.Valid() && (interval > 0.0 ==> OnTime(|readings|, timeout, interval, w.clock - started))
        decreases Left(w.delays, timeout, interval, deadline, |readings|, w.calls)
      {
        ghost var began := w.clock - started;
        var states := w.List();
        var event := if states.Some? then Listed(states.value) else NotListed;
        ghost var before := readings;
        readings := readings + [event];
        assert readings[..|readings| - 1] == before;
        var verdict := Verdict(event, id, expected);
        if verdict.Some? {
          return verdict.value, readings;
        }
        if w.clock >= started + timeout {
          return Err(TimedOut), readings;
        }
        StillUndecided(before, event, id, expected);
        ghost var read := w.clock - started;
        if interval <= 0.0 { CallsLeft(w.delays, interval, deadline, w.calls, w.clock); }
        w.Sleep(interval);
        if interval > 0.0 { NextOnTime(|before|, timeout, interval, began, read, w.clock - started); }
      }
    }

    /** Success means that the router accepted the load and the last reading showed the model loaded. */
    method LoadModel(w: Router, id: string) returns (r: Result<(), Fault>, ghost posted: Event, ghost readings: seq<Event>)
      requires w.Valid() && Polls(w.delays, interval)
      modifies w
      ensures w.log == old(w.log) + [posted] + readings
      ensures posted == NotPosted(Load, id) || posted == Posted(Load, id, true) || posted == Posted(Load, id, false)
      ensures posted == NotPosted(Load, id) ==> readings == [] && r == Err(NoAnswer)
      ensures posted == Posted(Load, id, false) ==> readings == [] && r == Err(Refused)
      ensures posted == Posted(Load, id, true) ==> Waited(readings, id, "loaded", r)
    {
      readings := [];
      var accepted := w.Post(Load, id);
      posted := if accepted.Some? then Posted(Load, id, accepted.value) else NotPosted(Load, id);
      if accepted.None? {
        return Err(NoAnswer), posted, readings;
      }
      if !accepted.value {
        return Err(Refused), posted, readings;
      }
      r, readings := WaitForState(w, id, "loaded");
    }

    /**
     Success means that the last reading showed the model unloaded, whether the router accepted
     the unload or refused it because the model was not running.
     */
    method UnloadModel(w: Router, id: string) returns (r: Result<(), Fault>, ghost posted: Event, ghost readings: seq<Event>)
      requires w.Valid() && Polls(w.delays, interval)
      modifies w
      ensures w.log == old(w.log) + [posted] + readings
      ensures posted == NotPosted(Unload, id) || posted == Posted(Unload, id, true) || posted == Posted(Unload, id, false)
      ensures posted == NotPosted(Unload, id) ==> readings == [] && r == Err(NoAnswer)
      ensures posted == Posted(Unload, id, false) ==>
                |readings| == 1 && (r.Ok? <==> ShowsState(readings[0], id, "unloaded"))
                && (r == Err(NoAnswer) <==> !readings[0].Listed?)
                && (r == Err(Unlisted) <==> readings[0].Listed? && id !in readings[0].states)
                && (r == Err(Refused) <==>
                      readings[0].Listed? && id in readings[0].states && readings[0].states[id].value != "unloaded")
      ensures posted == Posted(Unload, id, true) ==> Waited(readings, id, "unloaded", r)
      ensures r.Ok? ==> readings != [] && ShowsState(readings[|readings| - 1], id, "unloaded")
    {
      readings := [];
      var accepted := w.Post(Unload, id);
      posted := if accepted.Some? then Posted(Unload, id, accepted.value) else NotPosted(Unload, id);
      if accepted.None? {
        return Err(NoAnswer), posted, readings;
      }
      if !accepted.value {
        var states := w.List();
        var event := if states.Some? then Listed(states.value) else NotListed;
        readings := [event];
        return AfterRefusal(StateIn(event, id)), posted, readings;
      }
      r, readings := WaitForState(w, id, "unloaded");
      if r.Ok? {
        SuccessIsSeen(readings, id, "unloaded");
      }
    }

    /** A refused unload has succeeded if the model is unloaded after all. */
    function AfterRefusal(state: Result<ModelState, Fault>): Result<(), Fault> {
      if state.Err? then Err(state.error)
      else if state.value.value == "unloaded" then Ok(())
      else Err(Refused)
    }

    predicate ShowsState(event: Event, id: string, expected: string) {
      event.Listed? && id in event.states && event.states[id].value == expected
    }

    /** How the wait judges a reading: a failed load ends it, whatever state is reported with it. */
    lemma VerdictMeans(event: Event, id: string, expected: string)
      ensures Verdict(event, id, expected) ==
              if !event.Listed? then Some(Err(NoAnswer))
              else if id !in event.states then Some(Err(Unlisted))
              else if event.states[id].failed then Some(Err(LoadFailed))
              else if event.states[id].value == expected then Some(Ok(()))
              else None
    {
    }

    /** A wait that succeeded ended on a reading that shows the model in the state, with no failed load. */
    lemma SuccessIsSeen(readings: seq<Event>, id: string, expected: string)
      requires Waited(readings, id, expected, Ok(()))
      ensures var last := readings[|readings| - 1]; ShowsState(last, id, expected) && !last.states[id].failed
    {
    }

    /** A failed load ends the wait at once, whatever state was expected. */
    lemma FailureEndsTheWait(readings: seq<Event>, id: string, expected: string, r: Result<(), Fault>, i: nat)
      requires Waited(readings, id, expected, r) && i < |readings|
      requires readings[i].Listed? && id in readings[i].states && readings[i].states[id].failed
      ensures i == |readings| - 1 && r == Err(LoadFailed)
    {
      forall j | 0 <= j < |readings| - 1
        ensures Verdict(readings[j], id, expected).None?
      {
        assert readings[..|readings| - 1][j] == readings[j];
      }
    }
  }
}
