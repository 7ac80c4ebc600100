/** Which preset sections are accepted, told by what their settings say (src/model_broker/catalogue.py). */
module Sections {
  import opened Wrappers
  import opened Claims
  import opened Capacity
  import opened Suffix
  import opened Presets

  // ----- Lists of devices

  ghost predicate Blank(s: string) {
    forall i | 0 <= i < |s| :: Space(s[i])
  }

  /** `part` is this text with blanks around it. */
  ghost predicate Padded(part: string, text: string) {
    exists before, after :: PaddedWith(part, before, text, after)
  }

  ghost predicate PaddedWith(part: string, before: string, text: string, after: string) {
    Blank(before) && Blank(after) && part == before + text + after
  }

  function Joined(parts: seq<string>, c: char): string
    requires parts != []
  {
    if |parts| == 1 then parts[0] else parts[0] + [c] + Joined(parts[1..], c)
  }

  /** The value lists these GPUs: `none` for none, and otherwise their names between commas, with blanks. */
  ghost predicate Lists(value: string, ns: seq<nat>) {
    if ns == [] then value == "none"
    else exists parts: seq<string> :: ListsAs(value, ns, parts)
  }

  ghost predicate ListsAs(value: string, ns: seq<nat>, parts: seq<string>) {
    && parts != [] && |parts| == |ns| && value == Joined(parts, ',')
    && forall i | 0 <= i < |parts| :: Padded(parts[i], "CUDA" + Decimal(ns[i]))
  }

  lemma {:induction false} UntilEnds(first: string, rest: string, c: char)
    requires c !in first && (rest == [] || rest[0] == c)
    ensures Until(first + rest, c) == |first|
  {
    if first == [] {
      assert first + rest == rest;
    } else {
      UntilEnds(first[1..], rest, c);
      assert (first + rest)[1..] == first[1..] + rest;
    }
  }

  lemma {:induction false} SplitJoined(parts: seq<string>, c: char)
    requires parts != [] && forall i | 0 <= i < |parts| :: c !in parts[i]
    ensures Split(Joined(parts, c), c) == parts
  {
    var s := Joined(parts, c);
    if |parts| == 1 {
      assert parts[0] + [] == parts[0];
      UntilEnds(parts[0], [], c);
    } else {
      var rest := [c] + Joined(parts[1..], c);
      assert s == parts[0] + rest;
      UntilEnds(parts[0], rest, c);
      assert s[..|parts[0]|] == parts[0] && s[|parts[0]| + 1..] == Joined(parts[1..], c);
      SplitJoined(parts[1..], c);
      assert parts == [parts[0]] + parts[1..];
    }
  }

  lemma {:induction false} JoinedSplit(s: string, c: char)
    ensures Joined(Split(s, c), c) == s && forall i | 0 <= i < |Split(s, c)| :: c !in Split(s, c)[i]
    decreases |s|
  {
    var n := Until(s, c);
    if n < |s| {
      var rest := Split(s[n + 1..], c);
      JoinedSplit(s[n + 1..], c);
      assert Split(s, c)[1..] == rest;
      assert s == s[..n] + [c] + s[n + 1..];
    } else {
      assert s[..n] == s;
    }
  }

  lemma PadLeft(part: string, c: char, before: string, text: string, after: string)
    requires Space(c) && PaddedWith(part, before, text, after)
    ensures PaddedWith([c] + part, [c] + before, text, after)
  {
    assert [c] + (before + text + after) == [c] + before + text + after;
  }

  lemma PadRight(part: string, c: char, before: string, text: string, after: string)
    requires Space(c) && PaddedWith(part, before, text, after)
    ensures PaddedWith(part + [c], before, text, after + [c])
  {
    assert before + text + after + [c] == before + text + (after + [c]);
  }

  lemma {:induction false} StripPads(s: string) returns (before: string, after: string)
    ensures PaddedWith(s, before, Strip(s), after)
    ensures Strip(s) != [] ==> !Space(Strip(s)[0]) && !Space(Strip(s)[|Strip(s)| - 1])
    decreases |s|
  {
    if s != [] && Space(s[0]) {
      before, after := StripPads(s[1..]);
      PadLeft(s[1..], s[0], before, Strip(s), after);
      assert s == [s[0]] + s[1..];
      before := [s[0]] + before;
    } else if s != [] && Space(s[|s| - 1]) {
      var init, last := s[..|s| - 1], s[|s| - 1];
      before, after := StripPads(init);
      PadRight(init, last, before, Strip(s), after);
      assert s == init + [last];
      after := after + [last];
    } else {
      before, after := [], [];
    }
  }

  lemma {:induction false} StripPadded(before: string, text: string, after: string)
    requires Blank(before) && Blank(after) && text != [] && !Space(text[0]) && !Space(text[|text| - 1])
    ensures Strip(before + text + after) == text
    decreases |before| + |after|
  {
    var s := before + text + after;
    if before != [] {
      assert s[1..] == before[1..] + text + after;
      StripPadded(before[1..], text, after);
    } else if after != [] {
      assert s[0] == text[0];
      assert s[..|s| - 1] == before + text + after[..|after| - 1];
      StripPadded(before, text, after[..|after| - 1]);
    } else {
      assert s == text;
    }
  }

  lemma NamesHaveNoBlanks(n: nat)
    ensures var name := "CUDA" + Decimal(n); !Space(name[0]) && !Space(name[|name| - 1]) && ',' !in name
  {
    var name, ds := "CUDA" + Decimal(n), Decimal(n);
    assert name[|name| - 1] == ds[|ds| - 1] && Digit(ds[|ds| - 1]);
    forall i | 4 <= i < |name|
      ensures name[i] != ','
    {
      assert name[i] == ds[i - 4] && Digit(ds[i - 4]);
    }
  }

  lemma StripsToName(part: string, n: nat)
    ensures Strip(part) == "CUDA" + Decimal(n) <==> Padded(part, "CUDA" + Decimal(n))
  {
    NamesHaveNoBlanks(n);
    var name := "CUDA" + Decimal(n);
    if Padded(part, name) {
      var before, after :| PaddedWith(part, before, name, after);
      StripPadded(before, name, after);
    }
    if Strip(part) == name {
      var before, after := StripPads(part);
    }
  }

  lemma PartsHaveNoCommas(part: string, n: nat)
    requires Padded(part, "CUDA" + Decimal(n))
    ensures ',' !in part
  {
    NamesHaveNoBlanks(n);
    var name := "CUDA" + Decimal(n);
    var before, after :| PaddedWith(part, before, name, after);
  }

  lemma CudaDeviceIs(n: nat)
    ensures CudaDevice("CUDA" + Decimal(n))
  {
    assert ("CUDA" + Decimal(n))[4..] == Decimal(n);
  }

  /** The parser accepts a value, as these GPUs, exactly when it lists them and none twice. */
  lemma SettingDevicesIff(value: string, ns: seq<nat>)
    ensures SettingDevices(Some(value)) == Ok(Devices(ns)) <==> NoRepeats(ns) && Lists(value, ns)
  {
    DevicesDistinct(ns);
    if NoRepeats(ns) && Lists(value, ns) {
      if ns != [] { ListedIsParsed(value, ns); }
    }
    if SettingDevices(Some(value)) == Ok(Devices(ns)) {
      if ns == [] {
        assert |Stripped(Split(value, ','))| > 0;
      } else {
        ParsedIsListed(value, ns);
      }
    }
  }

  lemma ListedIsParsed(value: string, ns: seq<nat>)
    requires ns != [] && NoRepeats(ns) && Lists(value, ns)
    ensures SettingDevices(Some(value)) == Ok(Devices(ns))
  {
    var parts: seq<string> :| ListsAs(value, ns, parts);
    forall i | 0 <= i < |parts|
      ensures ',' !in parts[i] && Strip(parts[i]) == Devices(ns)[i] && CudaDevice(Strip(parts[i]))
    {
      assert Padded(parts[i], "CUDA" + Decimal(ns[i]));
      PartsHaveNoCommas(parts[i], ns[i]);
      StripsToName(parts[i], ns[i]);
      CudaDeviceIs(ns[i]);
    }
    SplitJoined(parts, ',');
    assert Stripped(Split(value, ',')) == Devices(ns);
    DevicesDistinct(ns);
    if value == "none" { NoneIsNoList(parts); }
  }

  /** `none` is no device name. */
  lemma NoneIsNoList(parts: seq<string>)
    requires parts != [] && Joined(parts, ',') == "none" && forall i | 0 <= i < |parts| :: ',' !in parts[i]
    ensures Strip(parts[0]) == "none"
  {
    SplitJoined(parts, ',');
    var none := "none";
    assert forall i | 0 <= i < 4 :: none[i] != ',';
    SplitPlain(none, ',');
    StripPlain(none);
  }

  lemma SplitPlain(s: string, c: char)
    requires c !in s
    ensures Split(s, c) == [s]
  {
    assert s + [] == s;
    UntilEnds(s, [], c);
  }

  lemma StripPlain(s: string)
    requires s != [] && !Space(s[0]) && !Space(s[|s| - 1])
    ensures Strip(s) == s
  {
  }

  /** What the parser accepts, other than `none`, are the stripped parts of the value. */
  lemma ParsedParts(value: string, names: seq<string>)
    requires names != [] && SettingDevices(Some(value)) == Ok(names)
    ensures NoRepeats(names) && |Split(value, ',')| == |names|
    ensures forall i | 0 <= i < |names| :: Strip(Split(value, ',')[i]) == names[i]
  {
    var parts := Split(value, ',');
    forall i | 0 <= i < |parts|
      ensures Stripped(parts)[i] == Strip(parts[i])
    {
    }
  }

  lemma PartsAreListed(value: string, parts: seq<string>, ns: seq<nat>)
    requires parts != [] && |parts| == |ns| && value == Joined(parts, ',')
    requires forall i | 0 <= i < |ns| :: Strip(parts[i]) == Devices(ns)[i]
    ensures ListsAs(value, ns, parts)
  {
    forall i | 0 <= i < |parts|
      ensures Padded(parts[i], "CUDA" + Decimal(ns[i]))
    {
      assert Strip(parts[i]) == Devices(ns)[i];
      StripsToName(parts[i], ns[i]);
    }
  }

  lemma ParsedIsListed(value: string, ns: seq<nat>)
    requires ns != [] && SettingDevices(Some(value)) == Ok(Devices(ns))
    ensures NoRepeats(ns) && Lists(value, ns)
  {
    ParsedParts(value, Devices(ns));
    DevicesDistinct(ns);
    JoinedSplit(value, ',');
    PartsAreListed(value, Split(value, ','), ns);
  }

  // ----- Sections of the llama.cpp preset

  ghost predicate ThreadsFine(settings: Settings, key: string, toInt: ToInt) {
    key in settings ==>
      toInt(settings[key]).Some? && (toInt(settings[key]).value > 0 || toInt(settings[key]).value == -1)
  }

  ghost predicate SetTo(settings: Settings, key: string, value: string) {
    key in settings && settings[key] == value
  }

  /** Every layer is where the suffix says, and experts are moved to the CPU only from GPUs. */
  ghost predicate LayersFine(settings: Settings, ns: seq<nat>, toInt: ToInt) {
    if ns == [] then
      SetTo(settings, "n-gpu-layers", "0") && "n-cpu-moe" !in settings && "split-mode" !in settings
      && "main-gpu" !in settings && "tensor-split" !in settings
    else
      SetTo(settings, "n-gpu-layers", "all")
      && ("n-cpu-moe" in settings ==> toInt(settings["n-cpu-moe"]).Some? && toInt(settings["n-cpu-moe"]).value >= 0)
  }

  /** What a section must say for a suffix that names these GPUs. */
  ghost predicate LlamaSound(settings: Settings, ns: seq<nat>, toInt: ToInt) {
    && "model" in settings && settings["model"] != ""
    && "device" in settings && Lists(settings["device"], ns)
    && ("spec-draft-device" in settings ==> Lists(settings["spec-draft-device"], ns))
    && ("device-draft" in settings ==> Lists(settings["device-draft"], ns))
    && ThreadsFine(settings, "threads", toInt) && ThreadsFine(settings, "threads-batch", toInt)
    && LayersFine(settings, ns, toInt)
  }

  lemma ConfirmedIff(id: string, settings: Settings, ns: seq<nat>)
    requires Suffixed(id, ns) && NoRepeats(ns)
    ensures SuffixDevices(id) == Ok(Devices(ns))
    ensures ConfirmedDevices(id, settings).Ok? <==> "device" in settings && Lists(settings["device"], ns)
    ensures ConfirmedDevices(id, settings).Ok? ==> ConfirmedDevices(id, settings) == Ok(Devices(ns))
  {
    SuffixAcceptsExactly(id, Devices(ns));
    if "device" in settings { SettingDevicesIff(settings["device"], ns); }
  }

  lemma DraftIff(settings: Settings, key: string, ns: seq<nat>)
    requires NoRepeats(ns)
    ensures DraftProblem(settings, key, Devices(ns)).None? <==> (key in settings ==> Lists(settings[key], ns))
  {
    if key in settings { SettingDevicesIff(settings[key], ns); }
  }

  lemma ThreadsIff(settings: Settings, key: string, toInt: ToInt)
    ensures ThreadsProblem(settings, key, toInt).None? <==> ThreadsFine(settings, key, toInt)
  {
  }

  lemma LayersIff(settings: Settings, ns: seq<nat>, toInt: ToInt)
    ensures ResourceClass(settings, Devices(ns), toInt).Ok? <==> LayersFine(settings, ns, toInt)
  {
    assert Devices(ns) == [] <==> ns == [];
    if ns == [] {
      assert GPU_ONLY_KEYS !! settings.Keys <==>
             "n-cpu-moe" !in settings && "split-mode" !in settings && "main-gpu" !in settings && "tensor-split" !in settings;
    }
  }

  lemma LlamaSoundIff(id: string, settings: Settings, ns: seq<nat>, toInt: ToInt)
    requires Suffixed(id, ns) && NoRepeats(ns)
    ensures LlamaVariant(id, settings, toInt).Ok? <==> LlamaSound(settings, ns, toInt)
  {
    ConfirmedIff(id, settings, ns);
    DraftIff(settings, "spec-draft-device", ns);
    DraftIff(settings, "device-draft", ns);
    ThreadsIff(settings, "threads", toInt);
    ThreadsIff(settings, "threads-batch", toInt);
    LayersIff(settings, ns, toInt);
  }

  /** A llama section is accepted exactly when its suffix names GPUs, none twice, and its settings agree. */
  lemma LlamaAcceptedIff(id: string, settings: Settings, toInt: ToInt)
    ensures LlamaVariant(id, settings, toInt).Ok? <==>
              exists ns: seq<nat> :: Suffixed(id, ns) && NoRepeats(ns) && LlamaSound(settings, ns, toInt)
  {
    if LlamaVariant(id, settings, toInt).Ok? {
      LlamaParts(id, settings, toInt);
      SuffixAcceptsExactly(id, SuffixDevices(id).value);
      var ns: seq<nat> :| Suffixed(id, ns) && NoRepeats(ns) && SuffixDevices(id).value == Devices(ns);
      LlamaSoundIff(id, settings, ns, toInt);
    }
    if ns: seq<nat> :| Suffixed(id, ns) && NoRepeats(ns) && LlamaSound(settings, ns, toInt) {
      LlamaSoundIff(id, settings, ns, toInt);
    }
  }

  // ----- Words

  ghost predicate Separates(c: char) {
    Space(c) || c == ','
  }

  /** `word` stands between `i` and `j`, as long as it can be without commas and blanks. */
  ghost predicate WordAt(s: string, word: string, i: nat, j: nat) {
    && i < j <= |s| && s[i..j] == word
    && (forall k | i <= k < j :: !Separates(s[k]))
    && (i == 0 || Separates(s[i - 1])) && (j == |s| || Separates(s[j]))
  }

  ghost predicate WordIn(s: string, word: string) {
    exists i: nat, j: nat :: WordAt(s, word, i, j)
  }

  lemma {:induction false} RunEnds(s: string)
    ensures var n := WordRun(s);
            (forall k | 0 <= k < n :: !Separates(s[k])) && (n < |s| ==> Separates(s[n]))
  {
    if s != [] && !Space(s[0]) && s[0] != ',' {
      RunEnds(s[1..]);
      assert forall k | 0 < k < WordRun(s) :: s[k] == s[1..][k - 1];
    }
  }

  /** After a separator, the words are those of the rest. */
  lemma SkipSeparator(s: string, word: string)
    requires s != [] && Separates(s[0])
    ensures WordIn(s, word) <==> WordIn(s[1..], word)
  {
    var rest := s[1..];
    if i: nat, j: nat :| WordAt(s, word, i, j) {
      assert i > 0;
      assert rest[i - 1..j - 1] == s[i..j];
      assert WordAt(rest, word, i - 1, j - 1);
    }
    if i: nat, j: nat :| WordAt(rest, word, i, j) {
      assert s[i + 1..j + 1] == rest[i..j];
      assert forall k | i + 1 <= k < j + 1 :: s[k] == rest[k - 1];
      assert WordAt(s, word, i + 1, j + 1);
    }
  }

  /** After a run without separators, which is a word, the words are those of the rest. */
  lemma SkipRun(s: string, n: nat, word: string)
    requires 0 < n <= |s| && (forall k | 0 <= k < n :: !Separates(s[k])) && (n < |s| ==> Separates(s[n]))
    ensures WordIn(s, word) <==> word == s[..n] || WordIn(s[n..], word)
  {
    var rest := s[n..];
    if i: nat, j: nat :| WordAt(s, word, i, j) {
      if i < n {
        assert i == 0 && j == n;
      } else {
        assert i > n;
        assert rest[i - n..j - n] == s[i..j];
        assert WordAt(rest, word, i - n, j - n);
      }
    }
    if word == s[..n] { assert WordAt(s, word, 0, n); }
    if i: nat, j: nat :| WordAt(rest, word, i, j) {
      assert i > 0;
      assert s[i + n..j + n] == rest[i..j];
      assert forall k | i + n <= k < j + n :: s[k] == rest[k - n];
      assert WordAt(s, word, i + n, j + n);
    }
  }

  lemma {:induction false} WordsAre(s: string, word: string)
    ensures word in Words(s) <==> WordIn(s, word)
    decreases |s|
  {
    if s == [] {
    } else {
      RunEnds(s);
      var n := WordRun(s);
      if n == 0 {
        SkipSeparator(s, word);
        WordsAre(s[1..], word);
      } else {
        SkipRun(s, n, word);
        WordsAre(s[n..], word);
      }
    }
  }

  // ----- Sections of a service preset

  /** The extra resources a section names. */
  ghost predicate Names(settings: Settings, resource: string) {
    "exclusive" in settings && WordIn(settings["exclusive"], resource)
  }

  lemma ExtraIs(settings: Settings, resource: string)
    ensures resource in Extra(settings) <==> Names(settings, resource)
  {
    if "exclusive" in settings {
      WordsAre(settings["exclusive"], resource);
    }
  }

  ghost predicate ServiceNameFine(s: string) {
    && s != [] && (s[0] in LOWER || s[0] in DIGITS)
    && forall c | c in s :: c in LOWER || c in DIGITS || c in "_.-"
  }

  ghost predicate EnvNameFine(s: string) {
    && s != [] && (s[0] in UPPER || s[0] == '_')
    && forall c | c in s :: c in UPPER || c in DIGITS || c == '_'
  }

  ghost predicate ResourceFine(s: string) {
    s != [] && forall c | c in s :: c in UPPER || c in LOWER || c in DIGITS || c in ":_-"
  }

  lemma ServiceNameIs(s: string)
    ensures ServiceName(s) <==> ServiceNameFine(s)
  {
    forall c
      ensures ServiceChar(c, false) <==> c in LOWER || c in DIGITS || c in "_.-"
      ensures ServiceChar(c, true) <==> c in LOWER || c in DIGITS
    {
      Ranges(c);
    }
    if ServiceName(s) {
      forall c | c in s
        ensures c in LOWER || c in DIGITS || c in "_.-"
      {
        var i :| 0 <= i < |s| && s[i] == c;
        assert ServiceChar(s[i], i == 0);
      }
    }
  }

  lemma EnvNameIs(s: string)
    ensures EnvName(s) <==> EnvNameFine(s)
  {
    forall c
      ensures EnvChar(c, false) <==> c in UPPER || c in DIGITS || c == '_'
      ensures EnvChar(c, true) <==> c in UPPER || c == '_'
    {
      Ranges(c);
    }
    if EnvName(s) {
      forall c | c in s
        ensures c in UPPER || c in DIGITS || c == '_'
      {
        var i :| 0 <= i < |s| && s[i] == c;
        assert EnvChar(s[i], i == 0);
      }
    }
  }

  lemma ResourceNameIs(s: string)
    ensures ResourceName(s) <==> ResourceFine(s)
  {
    forall c
      ensures ResourceChar(c) <==> c in UPPER || c in LOWER || c in DIGITS || c in ":_-"
    {
      Ranges(c);
    }
    if ResourceName(s) {
      forall c | c in s
        ensures c in UPPER || c in LOWER || c in DIGITS || c in ":_-"
      {
        var i :| 0 <= i < |s| && s[i] == c;
        assert ResourceChar(s[i]);
      }
    }
  }

  /** What a service's section must say for a suffix that names these GPUs. */
  ghost predicate ServiceSound(settings: Settings, ns: seq<nat>) {
    && (forall key | key in settings :: key == "service" || key == "device" || key == "exclusive" || "env." <= key)
    && "service" in settings && ServiceNameFine(settings["service"])
    && "device" in settings && Lists(settings["device"], ns)
    && (forall name | "env." + name in settings :: EnvNameFine(name))
    && (forall resource | Names(settings, resource) :: ResourceFine(resource))
  }

  lemma ServiceChecks(settings: Settings)
    ensures (forall name | name in EnvOf(settings) :: EnvName(name)) <==>
            (forall name | "env." + name in settings :: EnvNameFine(name))
    ensures (forall resource | resource in Extra(settings) :: ResourceName(resource)) <==>
            (forall resource | Names(settings, resource) :: ResourceFine(resource))
  {
    forall name
      ensures EnvName(name) <==> EnvNameFine(name)
    {
      EnvNameIs(name);
    }
    forall resource
      ensures resource in Extra(settings) <==> Names(settings, resource)
      ensures ResourceName(resource) <==> ResourceFine(resource)
    {
      ExtraIs(settings, resource);
      ResourceNameIs(resource);
    }
  }

  lemma ServiceOkIff(id: string, settings: Settings)
    ensures ServiceVariant(id, settings).Ok? <==>
            && (forall key | key in settings :: KnownKey(key))
            && ServiceName(if "service" in settings then settings["service"] else "")
            && ConfirmedDevices(id, settings).Ok?
            && (forall name | name in EnvOf(settings) :: EnvName(name))
            && (forall resource | resource in Extra(settings) :: ResourceName(resource))
  {
  }

  lemma ServiceSoundIff(id: string, settings: Settings, ns: seq<nat>)
    requires Suffixed(id, ns) && NoRepeats(ns)
    ensures ServiceVariant(id, settings).Ok? <==> ServiceSound(settings, ns)
  {
    ServiceOkIff(id, settings);
    ConfirmedIff(id, settings, ns);
    ServiceChecks(settings);
    ServiceNameIs(if "service" in settings then settings["service"] else "");
  }

  /** A service section is accepted exactly when its suffix names GPUs, none twice, and its settings agree. */
  lemma ServiceAcceptedIff(id: string, settings: Settings)
    ensures ServiceVariant(id, settings).Ok? <==>
              exists ns: seq<nat> :: Suffixed(id, ns) && NoRepeats(ns) && ServiceSound(settings, ns)
  {
    if ServiceVariant(id, settings).Ok? {
      ServiceExclusive(id, settings);
      SuffixAcceptsExactly(id, SuffixDevices(id).value);
      var ns: seq<nat> :| Suffixed(id, ns) && NoRepeats(ns) && SuffixDevices(id).value == Devices(ns);
      ServiceSoundIff(id, settings, ns);
    }
    if ns: seq<nat> :| Suffixed(id, ns) && NoRepeats(ns) && ServiceSound(settings, ns) {
      ServiceSoundIff(id, settings, ns);
    }
  }

  lemma ServiceBasics(id: string, settings: Settings)
    requires ServiceVariant(id, settings).Ok?
    ensures var v := ServiceVariant(id, settings).value;
            v.id == id && v.resourceClass == "service" && v.env == EnvOf(settings) && SetTo(settings, "service", v.backend)
  {
    ServiceNameIs(if "service" in settings then settings["service"] else "");
  }

  lemma ServiceHas(id: string, settings: Settings, ns: seq<nat>, resource: string)
    requires ServiceVariant(id, settings).Ok? && Suffixed(id, ns)
    ensures resource in Exclusive(ServiceVariant(id, settings).value) <==>
              (exists n :: n in ns && resource == "GPU" + Decimal(n)) || Names(settings, resource)
  {
    ServiceExclusive(id, settings);
    SuffixedDevices(id, ns);
    GpusAre(ns);
    ExtraIs(settings, resource);
  }

  /**
   An accepted service holds the GPUs its ID names and the resources its section names, runs as the
   service it names, and is started with exactly the variables its section sets.
   */
  lemma ServiceHolds(id: string, settings: Settings, ns: seq<nat>)
    requires ServiceVariant(id, settings).Ok? && Suffixed(id, ns)
    ensures var v := ServiceVariant(id, settings).value;
            && v.id == id && v.resourceClass == "service" && SetTo(settings, "service", v.backend)
            && (forall resource :: resource in Exclusive(v) <==>
                  (exists n :: n in ns && resource == "GPU" + Decimal(n)) || Names(settings, resource))
            && (forall name :: name in v.env <==> "env." + name in settings)
            && forall name | name in v.env :: v.env[name] == settings["env." + name]
  {
    ServiceBasics(id, settings);
    forall resource
      ensures resource in Exclusive(ServiceVariant(id, settings).value) <==>
                (exists n :: n in ns && resource == "GPU" + Decimal(n)) || Names(settings, resource)
    {
      ServiceHas(id, settings, ns, resource);
    }
  }
}
