/**
 A service that changes model by restarting its container (src/model_broker/managed.py). The
 helper that controls the container, its API and the clock are a `World` that answers as it
 pleases and records what was asked of it.
 */
module Managed {
  import opened Wrappers
  import opened Polling

  datatype Status = Status(state: string, settings: map<string, string>)

  const FAILED_STATES := {"exited", "dead", "missing"}
  const OCCUPYING_STATES := {"running", "restarting", "paused"}

  /** The container holds, or is about to hold, the service's resources. */
  predicate Occupies(status: Status) {
    status.state in OCCUPYING_STATES
  }

  /** The container runs, is being restarted or is paused. */
  ghost predicate Up(status: Status) {
    status.state == "running" || status.state == "restarting" || status.state == "paused"
  }

  /** The container has stopped, or there is none. */
  ghost predicate Stopped(status: Status) {
    status.state == "exited" || status.state == "dead" || status.state == "missing"
  }

  datatype Fault = Unlisted | RunningAnother | NoAnswer | FailedToStart | Mismatch | TimedOut

  /** What was asked of the helper, with its answer to a reading. */
  datatype Event = Read(status: Status, healthy: bool) | NotRead | Start(settings: map<string, string>) | Stop

  /** The answer to one call: a status or none, and the API's health. */
  datatype Answer = Answer(status: Option<Status>, healthy: bool)

  class World {
    const answers: nat -> Answer
    const delays: nat -> real
    var calls: nat
    var clock: real
    ghost var log: seq<Event>

    constructor (answers: nat -> Answer, delays: nat -> real)
      requires NeverBack(delays)
      ensures Valid() && log == []
    {
      this.answers, this.delays := answers, delays;
      calls, clock, log := 0, 0.0, [];
    }

    /** No call takes time back. */
    ghost predicate Valid()
      reads this
    {
      NeverBack(delays) && clock >= Elapsed(delays, calls)
    }

    /** A reading of the container, with a look at the API's health if it runs. */
    method ReadStatus() returns (status: Option<Status>, healthy: bool)
      requires Valid()
      modifies this
      ensures log == old(log) + [if status.Some? then Read(status.value, healthy) else NotRead]
      ensures Valid() && clock >= old(clock) && calls > old(calls)
      ensures healthy ==> status.Some? && status.value.state == "running"
    {
      var answer := answers(calls);
      calls, clock := calls + 1, clock + delays(calls);
      status := answer.status;
      healthy := status.Some? && status.value.state == "running" && answer.healthy;
      log := log + [if status.Some? then Read(status.value, healthy) else NotRead];
    }

    /** Ask for a start; whether the container then starts shows in later readings only. */
    method StartWith(settings: map<string, string>) returns (accepted: bool)
      requires Valid()
      modifies this
      ensures log == old(log) + [Start(settings)]
      ensures Valid() && clock >= old(clock) && calls > old(calls)
    {
      var answer := answers(calls);
      calls, clock, log := calls + 1, clock + delays(calls), log + [Start(settings)];
      accepted := answer.status.Some?;
    }

    method StopNow() returns (accepted: bool)
      requires Valid()
      modifies this
      ensures log == old(log) + [Stop]
      ensures Valid() && clock >= old(clock) && calls > old(calls)
    {
      var answer := answers(calls);
      calls, clock, log := calls + 1, clock + delays(calls), log + [Stop];
      accepted := answer.status.Some?;
    }

    method Sleep(seconds: real)
      requires Valid()
      modifies this
      ensures log == old(log) && clock >= old(clock) + seconds
      ensures Valid() && clock >= old(clock) && calls > old(calls)
    {
      var answer := answers(calls);
      calls, clock := calls + 1, clock + delays(calls) + if seconds > 0.0 then seconds else 0.0;
    }
  }

  /** A public model ID and the settings its container is started with. */
  datatype Model = Model(id: string, settings: map<string, string>)

  /** All of a model's settings are among the container's. */
  predicate Matches(settings: map<string, string>, status: Status) {
    forall name | name in settings :: name in status.settings && status.settings[name] == settings[name]
  }

  function IdentifyFrom(models: seq<Model>, status: Status): (found: Option<string>)
    ensures found.Some? ==> exists m :: m in models && m.id == found.value && Matches(m.settings, status)
    ensures found.None? <==> forall m | m in models :: !Matches(m.settings, status)
  {
    if models == [] then None
    else if Matches(models[0].settings, status) then Some(models[0].id)
    else
      assert models == [models[0]] + models[1..];
      IdentifyFrom(models[1..], status)
  }

  datatype ManagedService = ManagedService(service: string, models: seq<Model>, timeout: real, interval: real) {

    function Ids(): set<string> {
      set m | m in models :: m.id
    }

    function SettingsOf(id: string): map<string, string>
      requires id in Ids()
      ensures exists m :: m in models && m.id == id && SettingsOf(id) == m.settings
    {
      FirstSettings(models, id)
    }

    function Unrecognised(): string {
      service + ":unrecognised"
    }

    /** `identify`. */
    function Identify(status: Status): Option<string> {
      IdentifyFrom(models, status)
    }

    /** `read_states`, from one reading. */
    function States(status: Status, healthy: bool): map<string, string> {
      var idle := map id | id in Ids() :: "unloaded";
      if !Occupies(status) then idle
      else
        var running := Identify(status);
        idle[if running.Some? then running.value else Unrecognised() := if healthy then "loaded" else "loading"]
    }

    /** A different model, or one it does not know, is running. */
    predicate Refuses(status: Status, id: string) {
      Occupies(status) && Identify(status) != Some(id)
    }

    /** The container is up, with this model's settings. */
    ghost predicate Runs(status: Status, id: string) {
      Up(status) && Identify(status) == Some(id)
    }

    /** The container is up, with other settings. */
    ghost predicate RunsAnother(status: Status, id: string) {
      Up(status) && Identify(status) != Some(id)
    }

    /** What the wait loop makes of a reading: it has ended, or it goes on until the deadline. */
    function Verdict(status: Status, healthy: bool, id: string, expected: string): Option<Result<(), Fault>> {
      var states := States(status, healthy);
      if id !in states then Some(Err(Unlisted))
      else if states[id] == expected then Some(Ok(()))
      else if expected == "loaded" && status.state in FAILED_STATES then Some(Err(FailedToStart))
      else if expected == "loaded" && Refuses(status, id) then Some(Err(Mismatch))
      else None
    }

    /** All of these are readings that left the wait undecided. */
    ghost predicate Undecided(readings: seq<Event>, id: string, expected: string) {
      forall i | 0 <= i < |readings| ::
        readings[i].Read? && Verdict(readings[i].status, readings[i].healthy, id, expected).None?
    }

    /** How a wait that made these readings ends. */
    ghost predicate Waited(readings: seq<Event>, id: string, expected: string, r: Result<(), Fault>)
    {
      && readings != [] && (interval > 0.0 ==> |readings| <= MostReadings(timeout, interval))
      && Undecided(readings[..|readings| - 1], id, expected)
      && var last := readings[|readings| - 1];
      if last.Read? then
        var verdict := Verdict(last.status, last.healthy, id, expected);
        r == if verdict.Some? then verdict.value else Err(TimedOut)
      else last.NotRead? && r == Err(NoAnswer)
    }

    lemma StillUndecided(before: seq<Event>, event: Event, id: string, expected: string)
      requires Undecided(before, id, expected)
      requires event.Read? && Verdict(event.status, event.healthy, id, expected).None?
      ensures Undecided(before + [event], id, expected)
    {
    }

    /** Poll until the model reaches a state, the wait fails, or the time is up. */
    method WaitForState(w: World, id: string, expected: string) returns (r: Result<(), Fault>, ghost readings: seq<Event>)
      requires w.Valid() && Polls(w.delays, interval)
      modifies w
      ensures w.log == old(w.log) + readings && Waited(readings, id, expected, r)
      ensures r == Err(TimedOut) ==> w.clock >= old(w.clock) + timeout
    {
      var started := w.clock;
      readings := [];
      ghost var deadline := started + timeout;
      if interval > 0.0 { StartsOnTime(timeout, interval); }
      while true
        invariant w.log == old(w.log) + readings && Undecided(readings, id, expected)
        invariant w.Valid() && (interval > 0.0 ==> OnTime(|readings|, timeout, interval, w.clock - started))
        decreases Left(w.delays, timeout, interval, deadline, |readings|, w.calls)
      {
        ghost var began := w.clock - started;
        var status, healthy := w.ReadStatus();
        ghost var event := if status.Some? then Read(status.value, healthy) else NotRead;
        ghost var before := readings;
        readings := readings + [event];
        assert readings[..|readings| - 1] == before;
        if status.None? {
          return Err(NoAnswer), readings;
        }
        var verdict := Verdict(status.value, healthy, id, expected);
        if verdict.Some? {
          return verdict.value, readings;
        }
        if w.clock >= started + timeout {
          return Err(TimedOut), readings;
        }
        StillUndecided(before, event, id, expected);
        ghost var read := w.clock - started;
        if interval <= 0.0 { CallsLeft(w.delays, interval, deadline, w.calls, w.clock); }
        w.Sleep(interval);
        if interval > 0.0 { NextOnTime(|before|, timeout, interval, began, read, w.clock - started); }
      }
    }

    /**
     The container is started only if the reading just before showed none running, and with the
     model's own settings; nothing is ever stopped. Success means that the last reading showed
     the model loaded.
     */
    method Load(w: World, id: string) returns (r: Result<(), Fault>, ghost first: Event, ghost readings: seq<Event>)
      requires w.Valid() && Polls(w.delays, interval)
      modifies w
      ensures id !in Ids() <==> r == Err(Unlisted)
      ensures id !in Ids() ==> w.log == old(w.log)
      ensures id in Ids() ==> first.Read? || first.NotRead?
      ensures r == Err(RunningAnother) <==> id in Ids() && first.Read? && RunsAnother(first.status, id)
      ensures id in Ids() && first.NotRead? ==> r == Err(NoAnswer) && w.log == old(w.log) + [first]
      ensures id in Ids() && first.Read? && RunsAnother(first.status, id) ==>
                r == Err(RunningAnother) && w.log == old(w.log) + [first]
      ensures id in Ids() && first.Read? && !RunsAnother(first.status, id) ==>
                var starts := if Up(first.status) then [] else [Start(SettingsOf(id))];
                w.log == old(w.log) + [first] + starts + readings
                && (Waited(readings, id, "loaded", r) || (starts != [] && readings == [] && r == Err(NoAnswer)))
      ensures r.Ok? && Unrecognised() !in Ids() ==>
                readings != [] && var last := readings[|readings| - 1];
                last.Read? && last.healthy && Runs(last.status, id)
    {
      readings := [];
      first := NotRead;
      if id !in Ids() {
        return Err(Unlisted), first, readings;
      }
      var status, healthy := w.ReadStatus();
      first := if status.Some? then Read(status.value, healthy) else NotRead;
      if status.None? {
        return Err(NoAnswer), first, readings;
      }
      if Refuses(status.value, id) {
        return Err(RunningAnother), first, readings;
      }
      ghost var starts := [];
      if !Occupies(status.value) {
        starts := [Start(SettingsOf(id))];
        var accepted := w.StartWith(SettingsOf(id));
        if !accepted {
          return Err(NoAnswer), first, readings;
        }
      }
      assert w.log == old(w.log) + [first] + starts;
      r, readings := WaitForState(w, id, "loaded");
      ListedStays(readings, id, "loaded", r);
      if r.Ok? && Unrecognised() !in Ids() { LoadedIsSeen(readings, id); }
    }

    /**
     The container is stopped only if the reading just before showed this model running. Success
     means that the last reading showed the model unloaded.
     */
    method Unload(w: World, id: string) returns (r: Result<(), Fault>, ghost first: Event, ghost readings: seq<Event>)
      requires w.Valid() && Polls(w.delays, interval)
      modifies w
      ensures first.Read? || first.NotRead?
      ensures r == Err(RunningAnother) <==> first.Read? && RunsAnother(first.status, id)
      ensures first.NotRead? ==> r == Err(NoAnswer) && w.log == old(w.log) + [first]
      ensures first.Read? && RunsAnother(first.status, id) ==> r == Err(RunningAnother) && w.log == old(w.log) + [first]
      ensures first.Read? && !RunsAnother(first.status, id) ==>
                var stops := if Up(first.status) then [Stop] else [];
                w.log == old(w.log) + [first] + stops + readings
                && (Waited(readings, id, "unloaded", r) || (stops != [] && readings == [] && r == Err(NoAnswer)))
      ensures r.Ok? && id in Ids() ==>
                readings != [] && var last := readings[|readings| - 1]; last.Read? && !Runs(last.status, id)
    {
      readings := [];
      var status, healthy := w.ReadStatus();
      first := if status.Some? then Read(status.value, healthy) else NotRead;
      if status.None? {
        return Err(NoAnswer), first, readings;
      }
      if Refuses(status.value, id) {
        return Err(RunningAnother), first, readings;
      }
      if Occupies(status.value) {
        var accepted := w.StopNow();
        if !accepted {
          return Err(NoAnswer), first, readings;
        }
      }
      r, readings := WaitForState(w, id, "unloaded");
      if r.Ok? { SuccessIsSeen(readings, id, "unloaded"); }
    }

    // ----- What the readings mean

    /**
     A listed model is reported loaded exactly when its container runs and its API is healthy,
     loading while its container is up otherwise, and unloaded if no container of it is up.
     */
    lemma LoadedMeans(status: Status, healthy: bool, id: string)
      requires id in Ids() && (healthy ==> status.state == "running") && Unrecognised() !in Ids()
      ensures States(status, healthy)[id] == "loaded" <==> healthy && Identify(status) == Some(id)
      ensures States(status, healthy)[id] == "loading" <==> !healthy && Runs(status, id)
      ensures States(status, healthy)[id] == "unloaded" <==> !Runs(status, id)
    {
    }

    /**
     How the wait judges a reading. Waiting for "loaded" ends well when the container runs as this
     model and is healthy, and badly once it has stopped or runs as another; waiting for "unloaded"
     ends only when no container of this model is up.
     */
    lemma VerdictMeans(status: Status, healthy: bool, id: string)
      requires id in Ids() && (healthy ==> status.state == "running") && Unrecognised() !in Ids()
      ensures Verdict(status, healthy, id, "loaded") ==
              if healthy && Identify(status) == Some(id) then Some(Ok(()))
              else if Stopped(status) then Some(Err(FailedToStart))
              else if RunsAnother(status, id) then Some(Err(Mismatch))
              else None
      ensures Verdict(status, healthy, id, "unloaded") == if Runs(status, id) then None else Some(Ok(()))
    {
    }

    /** A model that is not listed ends any wait at once. */
    lemma UnlistedEndsTheWait(status: Status, healthy: bool, id: string, expected: string)
      requires id !in Ids() && id != Unrecognised()
      ensures Verdict(status, healthy, id, expected) == Some(Err(Unlisted))
    {
    }

    lemma ListedStays(readings: seq<Event>, id: string, expected: string, r: Result<(), Fault>)
      requires id in Ids() && Waited(readings, id, expected, r)
      ensures r != Err(Unlisted)
    {
    }

    /** A wait that succeeded ended on a reading that shows the model in the state. */
    lemma SuccessIsSeen(readings: seq<Event>, id: string, expected: string)
      requires Waited(readings, id, expected, Ok(()))
      ensures var last := readings[|readings| - 1];
              last.Read? && id in States(last.status, last.healthy) && States(last.status, last.healthy)[id] == expected
    {
    }

    /** A load that succeeded ended on a reading of this model's container, up and healthy. */
    lemma LoadedIsSeen(readings: seq<Event>, id: string)
      requires Waited(readings, id, "loaded", Ok(())) && id in Ids() && Unrecognised() !in Ids()
      ensures var last := readings[|readings| - 1];
              last.Read? && last.healthy && Runs(last.status, id)
    {
      SuccessIsSeen(readings, id, "loaded");
    }
  }

  function FirstSettings(models: seq<Model>, id: string): (settings: map<string, string>)
    requires exists m :: m in models && m.id == id
    ensures exists m :: m in models && m.id == id && settings == m.settings
  {
    if models[0].id == id then models[0].settings
    else
      assert models == [models[0]] + models[1..];
      FirstSettings(models[1..], id)
  }
}
