/**
 Preset sections into validated variants (`variant` and `service_variant`,
 src/model_broker/catalogue.py). `int`, which reads the numbers of a section, is a parameter.
 */
module Presets {
  import opened Wrappers
  import opened Claims
  import opened Capacity
  import opened Suffix

  type Settings = map<string, string>
  type ToInt = string -> Option<int>

  function Get(settings: Settings, key: string): Option<string> {
    if key in settings then Some(settings[key]) else None
  }

  // ----- Splitting text

  /** What `str.strip` and `str.split` take for whitespace. */
  predicate Space(c: char) {
    c == ' ' || '\t' <= c <= '\r' || '\U{1c}' <= c <= '\U{1f}' || c == '\U{85}' || c == '\U{a0}'
    || c == '\U{1680}' || '\U{2000}' <= c <= '\U{200a}' || c == '\U{2028}' || c == '\U{2029}'
    || c == '\U{202f}' || c == '\U{205f}' || c == '\U{3000}'
  }

  function Strip(s: string): string
    decreases |s|
  {
    if s != [] && Space(s[0]) then Strip(s[1..])
    else if s != [] && Space(s[|s| - 1]) then Strip(s[..|s| - 1])
    else s
  }

  /** How far a string runs without meeting a character. */
  function Until(s: string, c: char): (n: nat)
    ensures n <= |s| && c !in s[..n] && (n < |s| ==> s[n] == c)
  {
    if s == [] || s[0] == c then 0 else 1 + Until(s[1..], c)
  }

  /** `str.split` at a character. */
  function Split(s: string, c: char): (parts: seq<string>)
    ensures parts != []
    decreases |s|
  {
    var n := Until(s, c);
    if n == |s| then [s] else [s[..n]] + Split(s[n + 1..], c)
  }

  function WordRun(s: string): (n: nat)
    ensures n <= |s|
  {
    if s == [] || Space(s[0]) || s[0] == ',' then 0 else 1 + WordRun(s[1..])
  }

  /** The words between commas and whitespace. */
  function Words(s: string): seq<string>
    decreases |s|
  {
    if s == [] then []
    else
      var n := WordRun(s);
      if n == 0 then Words(s[1..]) else [s[..n]] + Words(s[n..])
  }

  // ----- Checks

  predicate CudaDevice(name: string) {
    StartsWith(name, "CUDA") && CudaNumber(name[4..])
  }

  function Stripped(parts: seq<string>): (names: seq<string>)
    ensures |names| == |parts|
  {
    seq(|parts|, i requires 0 <= i < |parts| => Strip(parts[i]))
  }

  /** `setting_devices`. */
  function SettingDevices(value: Option<string>): Result<seq<string>, Problem> {
    if value.None? then Err(NoSetting)
    else if value.value == "none" then Ok([])
    else
      var names := Stripped(Split(value.value, ','));
      if exists i | 0 <= i < |names| :: !CudaDevice(names[i]) then Err(InvalidDevices)
      else if !NoRepeats(names) then Err(RepeatsDevice)
      else Ok(names)
  }

  /** The suffix's devices, once `device` confirms them. */
  function ConfirmedDevices(id: string, settings: Settings): Result<seq<string>, Problem> {
    var devices := SuffixDevices(id);
    if devices.Err? then devices
    else
      var configured := SettingDevices(Get(settings, "device"));
      if configured.Err? then configured
      else if configured.value != devices.value then Err(DevicesDiffer)
      else devices
  }

  function DraftProblem(settings: Settings, key: string, devices: seq<string>): Option<Problem> {
    if key !in settings then None
    else
      var draft := SettingDevices(Some(settings[key]));
      if draft.Err? then Some(draft.error)
      else if draft.value != devices then Some(DraftElsewhere)
      else None
  }

  function IntSetting(settings: Settings, key: string, default: int, toInt: ToInt): Result<int, Problem> {
    if key !in settings then Ok(default)
    else if toInt(settings[key]).None? then Err(InvalidNumber)
    else Ok(toInt(settings[key]).value)
  }

  function ThreadsProblem(settings: Settings, key: string, toInt: ToInt): Option<Problem> {
    var threads := IntSetting(settings, key, -1, toInt);
    if threads.Err? then Some(threads.error)
    else if threads.value == 0 || threads.value < -1 then Some(InvalidThreads)
    else None
  }

  const GPU_ONLY_KEYS := {"n-cpu-moe", "split-mode", "main-gpu", "tensor-split"}

  /** `resource_class`. */
  function ResourceClass(settings: Settings, devices: seq<string>, toInt: ToInt): Result<string, Problem> {
    var layers := Get(settings, "n-gpu-layers");
    if devices == [] then
      if layers != Some("0") then Err(InvalidLayers)
      else if GPU_ONLY_KEYS !! settings.Keys then Ok("cpu_weights")
      else Err(GpuOnlySetting)
    else if layers != Some("all") then Err(InvalidLayers)
    else
      var moe := IntSetting(settings, "n-cpu-moe", 0, toInt);
      if moe.Err? then Err(moe.error)
      else if moe.value < 0 then Err(NegativeMoe)
      else Ok(if moe.value != 0 then "moe_offload" else "gpu_resident")
  }

  function GpuName(device: string): string
    requires |device| >= 4
  {
    "GPU" + device[4..]
  }

  predicate Named(devices: seq<string>) {
    forall i | 0 <= i < |devices| :: |devices[i]| >= 4
  }

  function GpuClaims(devices: seq<string>): (claims: seq<ResourceClaim>)
    requires Named(devices)
    ensures |claims| == |devices|
  {
    seq(|devices|, i requires 0 <= i < |devices| => ResourceClaim(GpuName(devices[i]), true))
  }

  /** `resource_claims`. */
  function ResourceClaims(kind: string, devices: seq<string>): seq<ResourceClaim>
    requires Named(devices)
  {
    [ResourceClaim("CPU", false), ResourceClaim("RAM:weights", kind != "gpu_resident")] + GpuClaims(devices)
  }

  /** `variant`: one section of the llama.cpp preset. */
  function LlamaVariant(id: string, settings: Settings, toInt: ToInt): Result<Variant, Problem> {
    if "model" !in settings || settings["model"] == "" then Err(NoModel)
    else
      var devices := ConfirmedDevices(id, settings);
      if devices.Err? then Err(devices.error)
      else if DraftProblem(settings, "spec-draft-device", devices.value).Some? then
        Err(DraftProblem(settings, "spec-draft-device", devices.value).value)
      else if DraftProblem(settings, "device-draft", devices.value).Some? then
        Err(DraftProblem(settings, "device-draft", devices.value).value)
      else if ThreadsProblem(settings, "threads", toInt).Some? then
        Err(ThreadsProblem(settings, "threads", toInt).value)
      else if ThreadsProblem(settings, "threads-batch", toInt).Some? then
        Err(ThreadsProblem(settings, "threads-batch", toInt).value)
      else
        var kind := ResourceClass(settings, devices.value, toInt);
        if kind.Err? then Err(kind.error)
        else Ok(Variant(id, ResourceClaims(kind.value, devices.value), kind.value, "llama", map[]))
  }

  // ----- What accepted llama variants hold

  function Gpus(devices: seq<string>): set<string>
    requires Named(devices)
  {
    set i | 0 <= i < |devices| :: GpuName(devices[i])
  }

  function Weights(kind: string): set<string> {
    if kind == "gpu_resident" then {} else {"RAM:weights"}
  }

  lemma LlamaExclusive(kind: string, devices: seq<string>, v: Variant)
    requires Named(devices) && v.claims == ResourceClaims(kind, devices)
    ensures Exclusive(v) == Gpus(devices) + Weights(kind)
  {
    var claims := ResourceClaims(kind, devices);
    assert claims[0] == ResourceClaim("CPU", false);
    assert claims[1] == ResourceClaim("RAM:weights", kind != "gpu_resident");
    assert forall i | 0 <= i < |devices| :: claims[i + 2] == ResourceClaim(GpuName(devices[i]), true);
    forall resource | resource in Exclusive(v)
      ensures resource in Gpus(devices) + Weights(kind)
    {
      var i :| 0 <= i < |claims| && claims[i].exclusive && claims[i].resource == resource;
      if i >= 2 { assert resource == GpuName(devices[i - 2]); }
    }
  }

  /** Every accepted llama variant holds something exclusively. */
  lemma LlamaHasClaim(id: string, settings: Settings, toInt: ToInt)
    requires LlamaVariant(id, settings, toInt).Ok?
    ensures Exclusive(LlamaVariant(id, settings, toInt).value) != {}
  {
    var v := LlamaVariant(id, settings, toInt).value;
    var devices := ConfirmedDevices(id, settings).value;
    LlamaExclusive(v.resourceClass, devices, v);
    if devices != [] {
      assert GpuName(devices[0]) in Gpus(devices);
    }
  }

  /** An accepted ID names one list of GPUs only. */
  lemma SuffixedDevices(id: string, ns: seq<nat>)
    requires Suffixed(id, ns) && SuffixDevices(id).Ok?
    ensures SuffixDevices(id).value == Devices(ns)
  {
    if ns != [] {
      var base, end :| SuffixedAs(id, base, ns, end);
      SearchFinds(base, Numbers(ns), end, 0);
      NotCpu(base, Numbers(ns), end);
    }
  }

  lemma LlamaParts(id: string, settings: Settings, toInt: ToInt)
    requires LlamaVariant(id, settings, toInt).Ok?
    ensures SuffixDevices(id).Ok? && Named(SuffixDevices(id).value)
    ensures var v := LlamaVariant(id, settings, toInt).value;
            && v.claims == ResourceClaims(v.resourceClass, SuffixDevices(id).value)
            && ResourceClass(settings, SuffixDevices(id).value, toInt) == Ok(v.resourceClass)
            && v.id == id && v.backend == "llama" && v.env == map[]
  {
  }

  lemma ClassIs(settings: Settings, devices: seq<string>, toInt: ToInt)
    requires ResourceClass(settings, devices, toInt).Ok?
    ensures ResourceClass(settings, devices, toInt).value ==
            if devices == [] then "cpu_weights" else if MovesExperts(settings, toInt) then "moe_offload" else "gpu_resident"
  {
  }

  lemma GpusAre(ns: seq<nat>)
    ensures Named(Devices(ns)) && Gpus(Devices(ns)) == set n | n in ns :: "GPU" + Decimal(n)
  {
    var gpus := set n | n in ns :: "GPU" + Decimal(n);
    forall i | 0 <= i < |ns|
      ensures GpuName(Devices(ns)[i]) == "GPU" + Decimal(ns[i]) && GpuName(Devices(ns)[i]) in gpus
    {
      assert Devices(ns)[i][4..] == Decimal(ns[i]);
      assert ns[i] in ns;
    }
    forall resource | resource in gpus
      ensures resource in Gpus(Devices(ns))
    {
      var n :| n in ns && resource == "GPU" + Decimal(n);
      var i :| 0 <= i < |ns| && ns[i] == n;
      assert GpuName(Devices(ns)[i]) == resource;
    }
  }

  /** The section moves experts to the CPU: `n-cpu-moe` is a number other than 0. */
  ghost predicate MovesExperts(settings: Settings, toInt: ToInt) {
    "n-cpu-moe" in settings && toInt(settings["n-cpu-moe"]).Some? && toInt(settings["n-cpu-moe"]).value != 0
  }

  /** Weights in host RAM: a CPU variant has them there, and a GPU variant that moves experts. */
  ghost predicate NeedsRam(settings: Settings, ns: seq<nat>, toInt: ToInt) {
    ns == [] || MovesExperts(settings, toInt)
  }

  /** The class of an accepted llama variant, told by its suffix and settings. */
  lemma LlamaClassIs(id: string, settings: Settings, ns: seq<nat>, toInt: ToInt)
    requires LlamaVariant(id, settings, toInt).Ok? && Suffixed(id, ns)
    ensures LlamaVariant(id, settings, toInt).value.resourceClass ==
            if ns == [] then "cpu_weights" else if MovesExperts(settings, toInt) then "moe_offload" else "gpu_resident"
  {
    LlamaParts(id, settings, toInt);
    SuffixedDevices(id, ns);
    ClassIs(settings, SuffixDevices(id).value, toInt);
  }

  /**
   An accepted llama variant holds the GPUs its ID names, and RAM for weights if its suffix names no
   GPU or it moves experts to the CPU; nothing else is exclusive, and the router serves it.
   */
  lemma LlamaHolds(id: string, settings: Settings, ns: seq<nat>, toInt: ToInt)
    requires LlamaVariant(id, settings, toInt).Ok? && Suffixed(id, ns)
    ensures var v := LlamaVariant(id, settings, toInt).value;
            && v.id == id && v.backend == "llama" && v.env == map[]
            && Exclusive(v) == (set n | n in ns :: "GPU" + Decimal(n))
                               + (if NeedsRam(settings, ns, toInt) then {"RAM:weights"} else {})
            && Named(Devices(ns)) && Exclusive(v) == Gpus(Devices(ns)) + Weights(v.resourceClass)
  {
    var v := LlamaVariant(id, settings, toInt).value;
    LlamaParts(id, settings, toInt);
    SuffixedDevices(id, ns);
    LlamaExclusive(v.resourceClass, Devices(ns), v);
    LlamaClassIs(id, settings, ns, toInt);
    GpusAre(ns);
    WeightsAre(v.resourceClass, settings, ns, toInt);
  }

  lemma WeightsAre(kind: string, settings: Settings, ns: seq<nat>, toInt: ToInt)
    requires kind == if ns == [] then "cpu_weights" else if MovesExperts(settings, toInt) then "moe_offload" else "gpu_resident"
    ensures Weights(kind) == if NeedsRam(settings, ns, toInt) then {"RAM:weights"} else {}
  {
  }

  lemma SharedGpu(ns: seq<nat>, ms: seq<nat>)
    ensures Named(Devices(ns)) && Named(Devices(ms))
    ensures Gpus(Devices(ns)) !! Gpus(Devices(ms)) <==> !exists n :: n in ns && n in ms
    ensures "RAM:weights" !in Gpus(Devices(ns))
  {
    GpusAre(ns);
    GpusAre(ms);
    forall n, m | n in ns && m in ms && "GPU" + Decimal(n) == "GPU" + Decimal(m)
      ensures n == m
    {
      assert ("GPU" + Decimal(n))[3..] == Decimal(n) && ("GPU" + Decimal(m))[3..] == Decimal(m);
      DecimalInjective(n, m);
    }
    if n :| n in ns && n in ms {
      assert "GPU" + Decimal(n) in Gpus(Devices(ns)) * Gpus(Devices(ms));
    }
    assert forall n :: ("GPU" + Decimal(n))[0] == 'G';
  }

  lemma OverlapIff(a: set<string>, b: set<string>, kind: string, kind': string)
    requires "RAM:weights" !in a && "RAM:weights" !in b
    ensures !(a + Weights(kind) !! b + Weights(kind')) <==>
              !(a !! b) || (kind != "gpu_resident" && kind' != "gpu_resident")
  {
    if kind != "gpu_resident" && kind' != "gpu_resident" {
      assert "RAM:weights" in (a + Weights(kind)) * (b + Weights(kind'));
    }
    if x :| x in a && x in b {
      assert x in (a + Weights(kind)) * (b + Weights(kind'));
    }
  }

  /** Two accepted llama variants conflict iff their suffixes share a GPU number or both have weights in RAM. */
  lemma LlamaConflictIff(id: string, settings: Settings, ns: seq<nat>,
                         id': string, settings': Settings, ms: seq<nat>, toInt: ToInt)
    requires LlamaVariant(id, settings, toInt).Ok? && Suffixed(id, ns)
    requires LlamaVariant(id', settings', toInt).Ok? && Suffixed(id', ms)
    ensures var v, w := LlamaVariant(id, settings, toInt).value, LlamaVariant(id', settings', toInt).value;
            ClaimsConflict(v, w) <==>
              (exists n :: n in ns && n in ms) || (v.resourceClass != "gpu_resident" && w.resourceClass != "gpu_resident")
    ensures ClaimsConflict(LlamaVariant(id, settings, toInt).value, LlamaVariant(id', settings', toInt).value) <==>
              (exists n :: n in ns && n in ms) || (NeedsRam(settings, ns, toInt) && NeedsRam(settings', ms, toInt))
  {
    LlamaClassIs(id, settings, ns, toInt);
    LlamaClassIs(id', settings', ms, toInt);
    var v, w := LlamaVariant(id, settings, toInt).value, LlamaVariant(id', settings', toInt).value;
    LlamaHolds(id, settings, ns, toInt);
    LlamaHolds(id', settings', ms, toInt);
    SharedGpu(ns, ms);
    SharedGpu(ms, ns);
    OverlapIff(Gpus(Devices(ns)), Gpus(Devices(ms)), v.resourceClass, w.resourceClass);
    ConflictIffOverlap(v, w);
  }

  /** So the capacity computed for a llama.cpp catalogue is exact. */
  lemma LlamaCapacityIsExact(variants: map<string, Variant>, sections: map<string, Settings>, toInt: ToInt, n: nat)
    requires variants.Keys == sections.Keys
    requires forall id | id in variants :: LlamaVariant(id, sections[id], toInt) == Ok(variants[id])
    requires LargestFamily(ResourceSets(variants), n)
    ensures LargestGroup(variants, n)
  {
    forall id | id in variants
      ensures Exclusive(variants[id]) != {}
    {
      LlamaHasClaim(id, sections[id], toInt);
    }
    assert Claimless(variants) == {};
    LargestGroupIs(variants, n);
  }

  // ----- Services

  predicate ServiceChar(c: char, first: bool) {
    'a' <= c <= 'z' || Digit(c) || (!first && (c == '_' || c == '.' || c == '-'))
  }

  predicate ServiceName(s: string) {
    s != [] && forall i | 0 <= i < |s| :: ServiceChar(s[i], i == 0)
  }

  predicate EnvChar(c: char, first: bool) {
    'A' <= c <= 'Z' || c == '_' || (!first && Digit(c))
  }

  predicate EnvName(s: string) {
    s != [] && forall i | 0 <= i < |s| :: EnvChar(s[i], i == 0)
  }

  predicate ResourceChar(c: char) {
    'A' <= c <= 'Z' || 'a' <= c <= 'z' || Digit(c) || c == ':' || c == '_' || c == '-'
  }

  predicate ResourceName(s: string) {
    s != [] && forall i | 0 <= i < |s| :: ResourceChar(s[i])
  }

  predicate KnownKey(key: string) {
    key == "service" || key == "device" || key == "exclusive" || StartsWith(key, "env.")
  }

  lemma EnvNames(settings: Settings, names: set<string>)
    requires names == set key | key in settings && StartsWith(key, "env.") :: key[4..]
    ensures forall name :: name in names <==> "env." + name in settings
  {
    forall name
      ensures name in names <==> "env." + name in settings
    {
      assert StartsWith("env." + name, "env.") && ("env." + name)[4..] == name;
      if name in names {
        var key :| key in settings && StartsWith(key, "env.") && key[4..] == name;
        assert key == "env." + key[4..];
      }
    }
  }

  /** The environment variables that a section sets. */
  function EnvOf(settings: Settings): (env: map<string, string>)
    ensures forall name :: name in env <==> "env." + name in settings
    ensures forall name | name in env :: env[name] == settings["env." + name]
  {
    var names := set key | key in settings && StartsWith(key, "env.") :: key[4..];
    assert forall name :: name in names <==> "env." + name in settings by { EnvNames(settings, names); }
    map name | name in names :: settings["env." + name]
  }

  function Extra(settings: Settings): set<string> {
    Elements(Words(if "exclusive" in settings then settings["exclusive"] else ""))
  }

  /** The resources of a set, in some order. */
  ghost function Ordered(resources: set<string>): (order: seq<string>)
    ensures Elements(order) == resources
  {
    if resources == {} then []
    else
      var first :| first in resources;
      var rest := Ordered(resources - {first});
      assert Elements([first] + rest) == {first} + Elements(rest);
      [first] + rest
  }

  function Held(order: seq<string>): (claims: seq<ResourceClaim>)
    ensures |claims| == |order| && forall i | 0 <= i < |order| :: claims[i] == ResourceClaim(order[i], true)
  {
    seq(|order|, i requires 0 <= i < |order| => ResourceClaim(order[i], true))
  }

  /** `service_variant`: one section of a restart-managed service's preset. */
  ghost function ServiceVariant(id: string, settings: Settings): Result<Variant, Problem> {
    var service := if "service" in settings then settings["service"] else "";
    if exists key | key in settings :: !KnownKey(key) then Err(UnknownSetting)
    else if !ServiceName(service) then Err(InvalidService)
    else
      var devices := ConfirmedDevices(id, settings);
      if devices.Err? then Err(devices.error)
      else if exists name | name in EnvOf(settings) :: !EnvName(name) then Err(InvalidEnvName)
      else if exists resource | resource in Extra(settings) :: !ResourceName(resource) then Err(InvalidResource)
      else
        var exclusive := Gpus(devices.value) + Extra(settings);
        var recorded := if "CPU" in exclusive then [] else [ResourceClaim("CPU", false)];
        Ok(Variant(id, recorded + Held(Ordered(exclusive)), "service", service, EnvOf(settings)))
  }

  lemma OrderedClaims(recorded: seq<ResourceClaim>, resources: set<string>, v: Variant)
    requires forall i | 0 <= i < |recorded| :: !recorded[i].exclusive
    requires v.claims == recorded + Held(Ordered(resources))
    ensures Exclusive(v) == resources
  {
    var order := Ordered(resources);
    forall resource | resource in resources
      ensures resource in Exclusive(v)
    {
      assert resource in Elements(order);
      var i :| 0 <= i < |order| && order[i] == resource;
      assert v.claims[|recorded| + i] == ResourceClaim(resource, true);
    }
    forall resource | resource in Exclusive(v)
      ensures resource in resources
    {
      var i :| 0 <= i < |v.claims| && v.claims[i] == ResourceClaim(resource, true);
      assert order[i - |recorded|] in Elements(order);
    }
  }

  /** An accepted service holds its GPUs and its extra resources, and nothing else, exclusively. */
  lemma ServiceExclusive(id: string, settings: Settings)
    requires ServiceVariant(id, settings).Ok?
    ensures SuffixDevices(id).Ok? && Named(SuffixDevices(id).value)
    ensures Exclusive(ServiceVariant(id, settings).value) == Gpus(SuffixDevices(id).value) + Extra(settings)
  {
    var exclusive := Gpus(SuffixDevices(id).value) + Extra(settings);
    var recorded := if "CPU" in exclusive then [] else [ResourceClaim("CPU", false)];
    OrderedClaims(recorded, exclusive, ServiceVariant(id, settings).value);
  }

  lemma CudaCount(id: string)
    ensures SuffixDevices(id).Ok? ==> (SuffixDevices(id).value == [] <==> EndsWith(id, "--cpu"))
  {
    if SuffixDevices(id).Ok? && !EndsWith(id, "--cpu") {
      var base, end := SearchFound(id, 0);
    }
  }

  /** A service is without an exclusive claim exactly when it is a CPU service that names no resource. */
  lemma ServiceClaimlessIff(id: string, settings: Settings)
    requires ServiceVariant(id, settings).Ok?
    ensures Exclusive(ServiceVariant(id, settings).value) == {} <==> EndsWith(id, "--cpu") && Extra(settings) == {}
  {
    ServiceExclusive(id, settings);
    CudaCount(id);
    var devices := SuffixDevices(id).value;
    if devices != [] {
      assert GpuName(devices[0]) in Gpus(devices);
    }
  }

  lemma TwoClaimless(variants: map<string, Variant>, a: string, b: string)
    requires a != b && variants.Keys == {a, b} && Exclusive(variants[a]) == {} && Exclusive(variants[b]) == {}
    ensures LargestFamily(ResourceSets(variants), 1) && LargestGroup(variants, 2)
  {
    var all := ResourceSets(variants);
    assert all == {{}} by { assert Exclusive(variants[a]) in all; }
    assert IsFamily(all, all, 1);
    forall m: nat | HasFamily(all, m)
      ensures m <= 1
    {
      var family :| IsFamily(all, family, m);
      CardinalityBound(family, all);
    }
    assert Claimless(variants) == {a, b};
    LargestGroupIs(variants, 1);
  }

  lemma NoEnv(settings: Settings)
    requires settings.Keys == {"service", "device"}
    ensures EnvOf(settings) == map[]
  {
    forall name
      ensures "env." + name !in settings
    {
      assert ("env." + name)[0] == 'e';
    }
    assert EnvOf(settings).Keys == {};
  }

  lemma BareServiceIsAccepted(id: string)
    requires EndsWith(id, "--cpu")
    ensures var settings := map["service" := "s", "device" := "none"];
            ServiceVariant(id, settings).Ok? && Exclusive(ServiceVariant(id, settings).value) == {}
  {
    var settings := map["service" := "s", "device" := "none"];
    NoEnv(settings);
    assert ConfirmedDevices(id, settings) == Ok([]);
    assert Extra(settings) == {};
    ServiceClaimlessIff(id, settings);
  }

  /** Two such services are accepted together, where the computed capacity is 1 and both fit. */
  lemma ClaimlessServicesFallShort()
    ensures var settings := map["service" := "s", "device" := "none"];
            var a, b := ServiceVariant("a--cpu", settings), ServiceVariant("b--cpu", settings);
            && a.Ok? && b.Ok?
            && var variants := map["a--cpu" := a.value, "b--cpu" := b.value];
               LargestFamily(ResourceSets(variants), 1) && LargestGroup(variants, 2)
  {
    var settings := map["service" := "s", "device" := "none"];
    BareServiceIsAccepted("a--cpu");
    BareServiceIsAccepted("b--cpu");
    var a, b := ServiceVariant("a--cpu", settings).value, ServiceVariant("b--cpu", settings).value;
    assert "a--cpu" != "b--cpu";
    TwoClaimless(map["a--cpu" := a, "b--cpu" := b], "a--cpu", "b--cpu");
  }
}
