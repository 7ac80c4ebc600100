/**
 The settings echo: what a container is started with comes back in its status
 (`parse_settings` and `container_status`, model-broker-service-control.py), so that the
 broker can tell which model runs (`identify`, src/model_broker/managed.py).
 */
module Echo {
  import opened Wrappers
  import opened Managed
  import opened Suffix
  import opened Presets

  const MAX_VALUE_LENGTH := 512

  datatype Refused = NotAnObject | NotAllowed | NotPermitted

  /** A value as it comes in a request: a string, or anything else. */
  datatype Raw = Text(text: string) | Other(what: int)

  /** The settings of a request, which should be an object. */
  datatype Input = Object(entries: map<Raw, Raw>) | NoObject

  predicate ValueChar(c: char) {
    'A' <= c <= 'Z' || 'a' <= c <= 'z' || '0' <= c <= '9'
    || c in {'_', '.', '/', ':', ',', '@', '%', '+', '=', '-'}
  }

  predicate Permitted(value: string) {
    |value| <= MAX_VALUE_LENGTH && forall i | 0 <= i < |value| :: ValueChar(value[i])
  }

  predicate Acceptable(allowed: set<string>, settings: map<string, string>) {
    settings.Keys <= allowed && forall name | name in settings :: Permitted(settings[name])
  }

  predicate NameOk(allowed: set<string>, name: Raw) {
    name.Text? && name.text in allowed
  }

  predicate ValueOk(value: Raw) {
    value.Text? && Permitted(value.text)
  }

  /** An object whose names are allowed strings and whose values are permitted ones. */
  predicate Parses(allowed: set<string>, raw: Input) {
    raw.Object? && forall name | name in raw.entries :: NameOk(allowed, name) && ValueOk(raw.entries[name])
  }

  /** The same settings, as strings. */
  predicate SameSettings(entries: map<Raw, Raw>, settings: map<string, string>) {
    && (forall name | name in settings :: Text(name) in entries && entries[Text(name)] == Text(settings[name]))
    && (forall name | name in entries :: name.Text? && name.text in settings)
  }

  /** `parse_settings`. */
  method ParseSettings(allowed: set<string>, raw: Input) returns (r: Result<map<string, string>, Refused>)
    ensures r.Ok? <==> Parses(allowed, raw)
    ensures r.Ok? ==> SameSettings(raw.entries, r.value) && Acceptable(allowed, r.value)
    ensures r == Err(NotAnObject) <==> raw.NoObject?
    ensures r == Err(NotAllowed) ==> exists name :: name in raw.entries && !NameOk(allowed, name)
    ensures r == Err(NotPermitted) ==> exists name :: name in raw.entries && !ValueOk(raw.entries[name])
  {
    if raw.NoObject? {
      return Err(NotAnObject);
    }
    var settings: map<string, string> := map[];
    var left := raw.entries.Keys;
    while left != {}
      invariant left <= raw.entries.Keys && Acceptable(allowed, settings)
      invariant forall name | name in settings ::
                  Text(name) in raw.entries && Text(name) !in left && raw.entries[Text(name)] == Text(settings[name])
      invariant forall name | name in raw.entries && name !in left ::
                  NameOk(allowed, name) && ValueOk(raw.entries[name]) && name.text in settings
      decreases |left|
    {
      var name :| name in left;
      if !NameOk(allowed, name) {
        return Err(NotAllowed);
      }
      if !ValueOk(raw.entries[name]) {
        return Err(NotPermitted);
      }
      settings := settings[name.text := raw.entries[name].text];
      left := left - {name};
    }
    return Ok(settings);
  }

  // ----- NAME=VALUE

  function Entry(name: string, value: string): string {
    name + "=" + value
  }

  /** Where the first `=` stands, or the length. */
  function Cut(entry: string): (n: nat)
    ensures n <= |entry| && '=' !in entry[..n] && (n < |entry| ==> entry[n] == '=')
  {
    if entry == [] || entry[0] == '=' then 0 else 1 + Cut(entry[1..])
  }

  /** `str.partition("=")`, without the separator. */
  function Partition(entry: string): (string, string) {
    var n := Cut(entry);
    if n == |entry| then (entry, []) else (entry[..n], entry[n + 1..])
  }

  lemma {:induction false} CutEnds(name: string, rest: string)
    requires '=' !in name
    ensures Cut(name + "=" + rest) == |name|
  {
    if name != [] {
      CutEnds(name[1..], rest);
      assert (name + "=" + rest)[1..] == name[1..] + "=" + rest;
    }
  }

  /** Partitioning undoes an entry, even when its value has `=` in it. */
  lemma PartitionsBack(name: string, value: string)
    requires '=' !in name
    ensures Partition(Entry(name, value)) == (name, value)
  {
    CutEnds(name, value);
    var entry := name + "=" + value;
    assert entry[..|name|] == name && entry[|name| + 1..] == value;
  }

  /** The last entry for each allowed name, as the loop leaves it. */
  function Settings(allowed: set<string>, entries: seq<string>): (environment: map<string, string>)
    ensures environment.Keys <= allowed
  {
    if entries == [] then map[]
    else
      var before := Settings(allowed, entries[..|entries| - 1]);
      var (name, value) := Partition(entries[|entries| - 1]);
      if name in allowed then before[name := value] else before
  }

  /** The entry is the last one that names this variable. */
  predicate LastFor(entries: seq<string>, i: nat, name: string) {
    i < |entries| && Partition(entries[i]).0 == name && forall j | i < j < |entries| :: Partition(entries[j]).0 != name
  }

  /** What the loop leaves: each allowed name that some entry names, with the value of its last entry. */
  ghost predicate LastValues(allowed: set<string>, entries: seq<string>, environment: map<string, string>) {
    && (forall name | name in environment :: name in allowed && exists i: nat :: LastFor(entries, i, name))
    && (forall name, i: nat | LastFor(entries, i, name) && name in allowed ::
          name in environment && environment[name] == Partition(entries[i]).1)
  }

  lemma LastAmong(entries: seq<string>, i: nat, name: string)
    requires entries != []
    ensures var n := |entries| - 1;
            LastFor(entries, i, name) <==>
            if i == n then Partition(entries[n]).0 == name
            else LastFor(entries[..n], i, name) && Partition(entries[n]).0 != name
  {
    var n := |entries| - 1;
    assert forall j | 0 <= j < n :: entries[..n][j] == entries[j];
  }

  lemma {:induction false} LastValueWins(allowed: set<string>, entries: seq<string>)
    ensures LastValues(allowed, entries, Settings(allowed, entries))
  {
    if entries != [] {
      var n := |entries| - 1;
      LastValueWins(allowed, entries[..n]);
      NextValueWins(allowed, entries, Settings(allowed, entries[..n]));
    }
  }

  lemma NextValueWins(allowed: set<string>, entries: seq<string>, before: map<string, string>)
    requires entries != [] && LastValues(allowed, entries[..|entries| - 1], before)
    ensures var (name, value) := Partition(entries[|entries| - 1]);
            LastValues(allowed, entries, if name in allowed then before[name := value] else before)
  {
    var n := |entries| - 1;
    var (last, value) := Partition(entries[n]);
    var after := if last in allowed then before[last := value] else before;
    forall name | name in after
      ensures name in allowed && exists i: nat :: LastFor(entries, i, name)
    {
      LastAmong(entries, n, name);
      if name != last {
        var i: nat :| LastFor(entries[..n], i, name);
        LastAmong(entries, i, name);
      }
    }
    forall name, i: nat | LastFor(entries, i, name) && name in allowed
      ensures name in after && after[name] == Partition(entries[i]).1
    {
      LastAmong(entries, i, name);
    }
  }

  /** The settings part of `container_status`: the last value given to each allowed name. */
  method ReadSettings(allowed: set<string>, entries: seq<string>) returns (environment: map<string, string>)
    ensures environment == Settings(allowed, entries)
    ensures LastValues(allowed, entries, environment)
  {
    environment := map[];
    for i := 0 to |entries|
      invariant environment == Settings(allowed, entries[..i])
    {
      var (name, value) := Partition(entries[i]);
      assert entries[..i + 1][..i] == entries[..i];
      if name in allowed {
        environment := environment[name := value];
      }
    }
    assert entries[..|entries|] == entries;
    LastValueWins(allowed, entries);
  }

  /** An entry without `=` is a name with an empty value. */
  lemma {:induction false} PartitionsBare(name: string)
    requires '=' !in name
    ensures Partition(name) == (name, [])
  {
    if name != [] {
      PartitionsBare(name[1..]);
      assert Cut(name[1..]) == |name| - 1;
    }
  }

  /** The characters a value may have, and how long it may be. */
  lemma PermittedIs(value: string)
    ensures Permitted(value) <==>
              |value| <= 512
              && forall c | c in value ::
                   c in UPPER || c in LOWER || c in DIGITS || c in "_./:,@%+=-"
  {
    forall c
      ensures ValueChar(c) <==>
                c in UPPER || c in LOWER || c in DIGITS || c in "_./:,@%+=-"
    {
      CharIs(c);
    }
  }

  lemma CharIs(c: char)
    ensures ValueChar(c) <==> c in UPPER || c in LOWER || c in DIGITS || c in "_./:,@%+=-"
  {
    Ranges(c);
  }

  // ----- From the model started to the model identified

  lemma NamesArePlain(allowed: set<string>)
    requires forall name | name in allowed :: EnvName(name)
    ensures forall name | name in allowed :: '=' !in name
  {
    forall name | name in allowed
      ensures '=' !in name
    {
      assert forall i | 0 <= i < |name| :: EnvChar(name[i], i == 0);
    }
  }

  /** Every setting has its entry, and no entry gives it another value; other entries are arbitrary. */
  ghost predicate Rendered(settings: map<string, string>, entries: seq<string>) {
    && (forall name | name in settings :: Entry(name, settings[name]) in entries)
    && (forall i | 0 <= i < |entries| :: Agrees(settings, Partition(entries[i])))
  }

  predicate Agrees(settings: map<string, string>, pair: (string, string)) {
    pair.0 in settings ==> settings[pair.0] == pair.1
  }

  lemma {:induction false} SettingsOfRendered(allowed: set<string>, settings: map<string, string>,
                                              entries: seq<string>, n: nat)
    requires n <= |entries| && Rendered(settings, entries)
    ensures var echo := Settings(allowed, entries[..n]);
            && (forall name | name in echo && name in settings :: echo[name] == settings[name])
            && (forall i | 0 <= i < n && Partition(entries[i]).0 in allowed :: Partition(entries[i]).0 in echo)
  {
    if n > 0 {
      SettingsOfRendered(allowed, settings, entries, n - 1);
      assert entries[..n][..n - 1] == entries[..n - 1];
      assert entries[..n][n - 1] == entries[n - 1];
      assert Agrees(settings, Partition(entries[n - 1]));
    }
  }

  /** The echo has every one of these settings. */
  predicate Echoes(settings: map<string, string>, echo: map<string, string>) {
    forall name | name in settings :: name in echo && echo[name] == settings[name]
  }

  /** Whatever other variables the container has, the settings it was started with come back. */
  lemma SettingsComeBack(allowed: set<string>, settings: map<string, string>, entries: seq<string>)
    requires settings.Keys <= allowed && forall name | name in allowed :: EnvName(name)
    requires Rendered(settings, entries)
    ensures Echoes(settings, Settings(allowed, entries))
  {
    NamesArePlain(allowed);
    SettingsOfRendered(allowed, settings, entries, |entries|);
    assert entries[..|entries|] == entries;
    forall name | name in settings
      ensures name in Settings(allowed, entries)
    {
      PartitionsBack(name, settings[name]);
      var i :| 0 <= i < |entries| && entries[i] == Entry(name, settings[name]);
      assert Partition(entries[i]).0 == name;
    }
  }

  /** All models set the same variables, and no two set them alike. */
  ghost predicate Distinguishable(models: seq<Model>) {
    && (forall i, j | 0 <= i < j < |models| :: models[i].settings.Keys == models[j].settings.Keys)
    && (forall i, j | 0 <= i < j < |models| :: models[i].settings != models[j].settings)
  }

  /** Over one set of variables, an echo matches no settings but its own. */
  lemma MatchesOnlyItself(mine: map<string, string>, other: map<string, string>, status: Status)
    requires mine.Keys == other.Keys && Echoes(mine, status.settings)
    ensures Matches(other, status) <==> other == mine
  {
    if Matches(other, status) {
      assert forall name | name in mine :: name in other && other[name] == mine[name];
    }
  }

  lemma {:induction false} IdentifiesOnly(models: seq<Model>, i: nat, status: Status)
    requires i < |models| && Distinguishable(models) && Echoes(models[i].settings, status.settings)
    ensures IdentifyFrom(models, status) == Some(models[i].id)
  {
    if i > 0 {
      MatchesOnlyItself(models[i].settings, models[0].settings, status);
      var rest := models[1..];
      assert forall j | 0 <= j < |rest| :: rest[j] == models[j + 1];
      IdentifiesOnly(rest, i - 1, status);
    }
  }

  /** End to end: the container that was started with a model's settings is identified as that model. */
  lemma StartedIsIdentified(service: ManagedService, i: nat, allowed: set<string>, entries: seq<string>, state: string)
    requires i < |service.models| && Distinguishable(service.models)
    requires Acceptable(allowed, service.models[i].settings) && forall name | name in allowed :: EnvName(name)
    requires Rendered(service.models[i].settings, entries)
    ensures service.Identify(Status(state, Settings(allowed, entries))) == Some(service.models[i].id)
  {
    SettingsComeBack(allowed, service.models[i].settings, entries);
    IdentifiesOnly(service.models, i, Status(state, Settings(allowed, entries)));
  }
}
