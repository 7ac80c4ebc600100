/** Device suffixes of public model IDs (`suffix_devices` and `setting_devices`, src/model_broker/catalogue.py). */
module Suffix {
  import opened Wrappers
  import opened Capacity

  datatype Problem =
    | NoModel | NoSuffix | RepeatsDevice | NoSetting | InvalidDevices | DevicesDiffer | DraftElsewhere
    | InvalidNumber | InvalidThreads | InvalidLayers | GpuOnlySetting | NegativeMoe
    | UnknownSetting | InvalidService | InvalidEnvName | InvalidResource

  // ----- Letters and digits

  const UPPER := "ABCDEFGHIJKLMNOPQRSTUVWXYZ"
  const LOWER := "abcdefghijklmnopqrstuvwxyz"
  const DIGITS := "0123456789"

  lemma UpperAt(k: nat)
    requires k < 26
    ensures UPPER[k] == 'A' + (k as char)
  {
  }

  lemma LowerAt(k: nat)
    requires k < 26
    ensures LOWER[k] == 'a' + (k as char)
  {
  }

  lemma DigitAt(k: nat)
    requires k < 10
    ensures DIGITS[k] == '0' + (k as char)
  {
  }

  /** The ranges of characters that names are made of, letter by letter. */
  lemma Ranges(c: char)
    ensures 'A' <= c <= 'Z' <==> c in UPPER
    ensures 'a' <= c <= 'z' <==> c in LOWER
    ensures '0' <= c <= '9' <==> c in DIGITS
  {
    if 'A' <= c <= 'Z' { UpperAt((c as int - 'A' as int) as nat); }
    if 'a' <= c <= 'z' { LowerAt((c as int - 'a' as int) as nat); }
    if '0' <= c <= '9' { DigitAt((c as int - '0' as int) as nat); }
    if k: nat :| k < 26 && UPPER[k] == c { UpperAt(k); }
    if k: nat :| k < 26 && LOWER[k] == c { LowerAt(k); }
    if k: nat :| k < 10 && DIGITS[k] == c { DigitAt(k); }
  }

  // ----- Numbers

  predicate Digit(c: char) {
    '0' <= c <= '9'
  }

  predicate Digits(ds: string) {
    forall i | 0 <= i < |ds| :: Digit(ds[i])
  }

  /** `(?:0|[1-9][0-9]*)`. */
  predicate CudaNumber(ds: string) {
    ds != [] && Digits(ds) && (ds[0] == '0' ==> |ds| == 1)
  }

  function DigitChar(d: nat): (c: char)
    requires d < 10
    ensures Digit(c) && (c == '0' <==> d == 0) && DigitValue(c) == d
  {
    '0' + (d as char)
  }

  function DigitValue(c: char): nat
    requires Digit(c)
  {
    c as int - '0' as int
  }

  function Decimal(n: nat): (ds: string)
    ensures CudaNumber(ds) && (ds[0] == '0' <==> n == 0)
  {
    if n < 10 then [DigitChar(n)] else Decimal(n / 10) + [DigitChar(n % 10)]
  }

  function Value(ds: string): nat
    requires Digits(ds)
  {
    if ds == [] then 0 else Value(ds[..|ds| - 1]) * 10 + DigitValue(ds[|ds| - 1])
  }

  lemma {:induction false} ValueOfDecimal(n: nat)
    ensures Value(Decimal(n)) == n
  {
    if n >= 10 {
      ValueOfDecimal(n / 10);
      assert Decimal(n)[..|Decimal(n)| - 1] == Decimal(n / 10);
    } else {
      assert Decimal(n)[..0] == [];
    }
  }

  lemma DecimalStep(v: nat, d: nat)
    requires v > 0 && d < 10
    ensures Decimal(v * 10 + d) == Decimal(v) + [DigitChar(d)]
  {
    assert (v * 10 + d) / 10 == v && (v * 10 + d) % 10 == d;
  }

  /** The accepted numerals are exactly the decimal forms of the natural numbers. */
  lemma {:induction false} DecimalOfValue(ds: string)
    requires CudaNumber(ds)
    ensures Decimal(Value(ds)) == ds
  {
    var most, last := ds[..|ds| - 1], ds[|ds| - 1];
    assert ds == most + [last];
    if most == [] {
      assert Value(most) == 0;
    } else {
      DecimalOfValue(most);
      DecimalStep(Value(most), DigitValue(last));
    }
  }

  lemma DecimalInjective(a: nat, b: nat)
    ensures Decimal(a) == Decimal(b) <==> a == b
  {
    ValueOfDecimal(a);
    ValueOfDecimal(b);
  }

  // ----- Device lists

  predicate StartsWith(s: string, prefix: string) {
    prefix <= s
  }

  predicate EndsWith(s: string, suffix: string) {
    |suffix| <= |s| && s[|s| - |suffix|..] == suffix
  }

  /** How many digits a string starts with. */
  function DigitRun(s: string): (n: nat)
    ensures n <= |s| && (forall i | 0 <= i < n :: Digit(s[i])) && (n < |s| ==> !Digit(s[n]))
  {
    if s == [] || !Digit(s[0]) then 0 else 1 + DigitRun(s[1..])
  }

  /** Match a whole string against `cuda<N>(?:-cuda<N>)*`, returning the numerals. */
  function MatchList(s: string): Option<seq<string>> {
    if !StartsWith(s, "cuda") then None
    else
      var n := DigitRun(s[4..]);
      var number, rest := s[4..4 + n], s[4 + n..];
      if !CudaNumber(number) then None
      else if rest == [] then Some([number])
      else if rest[0] != '-' then None
      else
        var others := MatchList(rest[1..]);
        if others.None? then None else Some([number] + others.value)
  }

  /** The numerals as a suffix writes them. */
  function Written(numbers: seq<string>): string {
    if numbers == [] then []
    else if |numbers| == 1 then "cuda" + numbers[0]
    else "cuda" + numbers[0] + ("-" + Written(numbers[1..]))
  }

  predicate Numerals(numbers: seq<string>) {
    forall i | 0 <= i < |numbers| :: CudaNumber(numbers[i])
  }

  lemma {:induction false} DigitRunEnds(number: string, rest: string)
    requires Digits(number) && (rest != [] ==> !Digit(rest[0]))
    ensures DigitRun(number + rest) == |number|
  {
    if number == [] {
      assert number + rest == rest;
    } else {
      DigitRunEnds(number[1..], rest);
      assert (number + rest)[1..] == number[1..] + rest;
    }
  }

  lemma SplitDevice(number: string, rest: string)
    requires Digits(number) && (rest != [] ==> !Digit(rest[0]))
    ensures var s, n := "cuda" + number + rest, |number|;
            StartsWith(s, "cuda") && DigitRun(s[4..]) == n && s[4..4 + n] == number && s[4 + n..] == rest
  {
    var s := "cuda" + number + rest;
    assert s[4..] == number + rest;
    DigitRunEnds(number, rest);
  }

  lemma MatchSingle(number: string)
    requires CudaNumber(number)
    ensures MatchList("cuda" + number) == Some([number])
  {
    assert "cuda" + number + [] == "cuda" + number;
    SplitDevice(number, []);
  }

  lemma MatchMore(number: string, others: string)
    requires CudaNumber(number) && MatchList(others).Some?
    ensures MatchList("cuda" + number + ("-" + others)) == Some([number] + MatchList(others).value)
  {
    SplitDevice(number, "-" + others);
    assert ("-" + others)[1..] == others;
    MatchListStep("cuda" + number + ("-" + others), number, "-" + others, MatchList(others).value);
  }

  lemma MatchWrittenStep(number: string, others: seq<string>)
    requires CudaNumber(number) && others != [] && MatchList(Written(others)) == Some(others)
    ensures MatchList(Written([number] + others)) == Some([number] + others)
  {
    MatchMore(number, Written(others));
    assert ([number] + others)[1..] == others;
  }

  lemma {:induction false} MatchesWritten(numbers: seq<string>)
    requires numbers != [] && Numerals(numbers)
    ensures MatchList(Written(numbers)) == Some(numbers)
  {
    TailNumerals(numbers);
    if |numbers| == 1 {
      MatchSingle(numbers[0]);
      assert numbers == [numbers[0]];
    } else {
      MatchesWritten(numbers[1..]);
      MatchWrittenStep(numbers[0], numbers[1..]);
      assert numbers == [numbers[0]] + numbers[1..];
    }
  }

  lemma TailNumerals(numbers: seq<string>)
    requires numbers != [] && Numerals(numbers)
    ensures Numerals(numbers[1..]) && CudaNumber(numbers[0])
  {
  }

  lemma MatchListStep(s: string, number: string, rest: string, others: seq<string>)
    requires StartsWith(s, "cuda") && DigitRun(s[4..]) == |number| && s[4..4 + |number|] == number
    requires s[4 + |number|..] == rest && rest != [] && rest[0] == '-'
    requires CudaNumber(number) && MatchList(rest[1..]) == Some(others)
    ensures MatchList(s) == Some([number] + others)
  {
  }

  lemma {:induction false} MatchedIsWritten(s: string)
    requires MatchList(s).Some?
    ensures var numbers := MatchList(s).value; numbers != [] && Numerals(numbers) && s == Written(numbers)
    decreases |s|
  {
    var n := DigitRun(s[4..]);
    var number, rest := s[4..4 + n], s[4 + n..];
    assert s == "cuda" + number + rest;
    if rest != [] {
      MatchedIsWritten(rest[1..]);
      WrittenStep(number, MatchList(rest[1..]).value);
      assert rest == "-" + rest[1..];
    }
  }

  lemma WrittenStep(number: string, others: seq<string>)
    requires others != [] && CudaNumber(number) && Numerals(others)
    ensures Written([number] + others) == "cuda" + number + ("-" + Written(others)) && Numerals([number] + others)
  {
    assert ([number] + others)[1..] == others;
  }

  // ----- Searching for the suffix

  predicate NoDoubleDash(s: string) {
    (s != [] ==> s[0] != '-') && forall i | 0 <= i < |s| - 1 :: !(s[i] == '-' && s[i + 1] == '-')
  }

  lemma {:induction false} WrittenHasNoDoubleDash(numbers: seq<string>)
    requires Numerals(numbers)
    ensures NoDoubleDash(Written(numbers))
    ensures numbers != [] ==> Written(numbers) != [] && Digit(Written(numbers)[|Written(numbers)| - 1])
  {
    if |numbers| == 1 {
      assert forall i | 0 <= i < |numbers[0]| :: Written(numbers)[i + 4] == numbers[0][i];
    } else if |numbers| > 1 {
      var first, others := "cuda" + numbers[0], Written(numbers[1..]);
      assert Numerals(numbers[1..]);
      WrittenHasNoDoubleDash(numbers[1..]);
      var s := Written(numbers);
      assert s == first + "-" + others;
      forall i | 0 <= i < |s| - 1
        ensures !(s[i] == '-' && s[i + 1] == '-')
      {
        if i > |first| {
          assert s[i] == others[i - |first| - 1] && s[i + 1] == others[i - |first|];
        } else if i < |first| {
          assert s[i] == first[i];
        }
      }
    }
  }

  /** What `$` lets a match end at: the end of the string, or its final newline. */
  function Body(s: string): string {
    if EndsWith(s, "\n") then s[..|s| - 1] else s
  }

  /** The numerals of a match of the suffix pattern at one place. */
  function MatchAt(id: string, i: nat): Option<seq<string>>
    requires i <= |id|
  {
    if StartsWith(id[i..], "--") then MatchList(Body(id[i + 2..])) else None
  }

  /** `CUDA_SUFFIX.search`: the leftmost match from `i` on. */
  function Search(id: string, i: nat): (found: Option<seq<string>>)
    requires i <= |id|
    decreases |id| - i
  {
    if MatchAt(id, i).Some? then MatchAt(id, i)
    else if i == |id| then None
    else Search(id, i + 1)
  }

  function CudaNames(numbers: seq<string>): (names: seq<string>)
    ensures |names| == |numbers| && forall i | 0 <= i < |numbers| :: names[i] == "CUDA" + numbers[i]
  {
    seq(|numbers|, i requires 0 <= i < |numbers| => "CUDA" + numbers[i])
  }

  /** `suffix_devices`. */
  function SuffixDevices(id: string): Result<seq<string>, Problem> {
    if EndsWith(id, "--cpu") then Ok([])
    else
      var found := Search(id, 0);
      if found.None? then Err(NoSuffix)
      else if !NoRepeats(CudaNames(found.value)) then Err(RepeatsDevice)
      else Ok(CudaNames(found.value))
  }

  // ----- What the search finds

  /** The suffix is found wherever it is written, whatever the base name: nothing matches before it. */
  lemma {:induction false} SearchFinds(base: string, numbers: seq<string>, end: string, i: nat)
    requires numbers != [] && Numerals(numbers) && (end == [] || end == "\n") && i <= |base|
    ensures Search(base + "--" + Written(numbers) + end, i) == Some(numbers)
    decreases |base| - i
  {
    var written := Written(numbers);
    var id := base + "--" + written + end;
    WrittenHasNoDoubleDash(numbers);
    if i == |base| {
      assert id[i..] == "--" + written + end;
      assert id[i + 2..] == written + end;
      BodyOf(written, end);
      MatchesWritten(numbers);
    } else {
      SearchFinds(base, numbers, end, i + 1);
      if StartsWith(id[i..], "--") {
        var body := Body(id[i + 2..]);
        NotWritten(base, written, end, i);
        if MatchList(body).Some? {
          MatchedIsWritten(body);
          WrittenHasNoDoubleDash(MatchList(body).value);
        }
      }
    }
  }

  lemma BodyOf(written: string, end: string)
    requires (end == [] || end == "\n") && written != [] && written[|written| - 1] != '\n'
    ensures Body(written + end) == written
  {
    var s := written + end;
    if end == [] {
      assert s[|s| - 1..] == [written[|written| - 1]];
    } else {
      assert s[|s| - 1..] == "\n";
    }
  }

  /** A match that starts before the suffix would have two dashes running in its list. */
  lemma NotWritten(base: string, written: string, end: string, i: nat)
    requires written != [] && (end == [] || end == "\n") && i < |base| && written[|written| - 1] != '\n'
    requires StartsWith((base + "--" + written + end)[i..], "--")
    ensures !NoDoubleDash(Body((base + "--" + written + end)[i + 2..]))
  {
    var id := base + "--" + written + end;
    var most := base + "--" + written;
    assert id[i + 2..] == most[i + 2..] + end;
    assert most[i + 2..][|most| - i - 3] == written[|written| - 1];
    BodyOf(most[i + 2..], end);
    var body := most[i + 2..];
    if i + 1 == |base| {
      assert body[0] == most[|base| + 1];
    } else {
      var j := |base| - i - 2;
      assert body[j] == most[|base|] && body[j + 1] == most[|base| + 1];
    }
  }

  /** Whatever the search finds is written at the end of the ID. */
  lemma {:induction false} SearchFound(id: string, i: nat) returns (base: string, end: string)
    requires i <= |id| && Search(id, i).Some?
    ensures FoundAs(id, base, Search(id, i).value, end)
    decreases |id| - i
  {
    if MatchAt(id, i).Some? {
      base := id[..i];
      end := MatchedAt(id, i);
    } else {
      base, end := SearchFound(id, i + 1);
    }
  }

  predicate FoundAs(id: string, base: string, numbers: seq<string>, end: string) {
    numbers != [] && Numerals(numbers) && (end == [] || end == "\n")
    && id == base + "--" + Written(numbers) + end
  }

  lemma BodyEnd(s: string) returns (end: string)
    ensures s == Body(s) + end && (end == [] || end == "\n")
  {
    end := s[|Body(s)|..];
  }

  lemma MatchedAt(id: string, i: nat) returns (end: string)
    requires i <= |id| && MatchAt(id, i).Some?
    ensures FoundAs(id, id[..i], MatchAt(id, i).value, end)
  {
    var body := Body(id[i + 2..]);
    MatchedIsWritten(body);
    end := BodyEnd(id[i + 2..]);
    Rejoin(id, i, body, end);
  }

  lemma Rejoin(id: string, i: nat, body: string, end: string)
    requires i <= |id| && StartsWith(id[i..], "--") && id[i + 2..] == body + end
    ensures id == id[..i] + "--" + body + end
  {
    assert id[i + 2..] == id[i..][2..];
    assert id == id[..i] + "--" + id[i + 2..];
  }

  // ----- Printing and parsing back

  function Numbers(ns: seq<nat>): (numbers: seq<string>)
    ensures |numbers| == |ns| && forall i | 0 <= i < |ns| :: numbers[i] == Decimal(ns[i])
  {
    seq(|ns|, i requires 0 <= i < |ns| => Decimal(ns[i]))
  }

  /** The devices with these numbers. */
  function Devices(ns: seq<nat>): (names: seq<string>)
    ensures |names| == |ns| && forall i | 0 <= i < |ns| :: names[i] == "CUDA" + Decimal(ns[i])
  {
    CudaNames(Numbers(ns))
  }

  /** An ID whose suffix names these GPUs, or the CPU when there are none. */
  ghost predicate Suffixed(id: string, ns: seq<nat>) {
    if ns == [] then EndsWith(id, "--cpu")
    else exists base, end :: SuffixedAs(id, base, ns, end)
  }

  predicate SuffixedAs(id: string, base: string, ns: seq<nat>, end: string) {
    (end == [] || end == "\n") && id == base + "--" + Written(Numbers(ns)) + end
  }

  lemma DevicesDistinct(ns: seq<nat>)
    ensures NoRepeats(Devices(ns)) <==> NoRepeats(ns)
  {
    forall i, j | 0 <= i < |ns| && 0 <= j < |ns|
      ensures Devices(ns)[i] == Devices(ns)[j] <==> ns[i] == ns[j]
    {
      assert Devices(ns)[i][4..] == Decimal(ns[i]) && Devices(ns)[j][4..] == Decimal(ns[j]);
      DecimalInjective(ns[i], ns[j]);
    }
  }

  lemma EndsInU(id: string)
    ensures EndsWith(id, "--cpu") ==> id[|id| - 1] == 'u'
  {
    if EndsWith(id, "--cpu") {
      assert id[|id| - 5..][4] == id[|id| - 1];
    }
  }

  lemma NotCpu(base: string, numbers: seq<string>, end: string)
    requires numbers != [] && Numerals(numbers) && (end == [] || end == "\n")
    ensures !EndsWith(base + "--" + Written(numbers) + end, "--cpu")
  {
    WrittenHasNoDoubleDash(numbers);
    var id := base + "--" + Written(numbers) + end;
    assert id[|id| - 1] == '\n' || Digit(id[|id| - 1]);
    EndsInU(id);
  }

  /** Writing any distinct GPU numbers after any base name and parsing the ID gives them back. */
  lemma SuffixRoundTrip(base: string, ns: seq<nat>)
    requires ns != [] && NoRepeats(ns)
    ensures SuffixDevices(base + "--" + Written(Numbers(ns))) == Ok(Devices(ns))
  {
    assert base + "--" + Written(Numbers(ns)) + [] == base + "--" + Written(Numbers(ns));
    SearchFinds(base, Numbers(ns), [], 0);
    NotCpu(base, Numbers(ns), []);
    DevicesDistinct(ns);
  }

  function Values(numbers: seq<string>): (ns: seq<nat>)
    requires Numerals(numbers)
    ensures |ns| == |numbers|
  {
    seq(|numbers|, i requires 0 <= i < |numbers| => Value(numbers[i]))
  }

  lemma NumbersOfValues(numbers: seq<string>)
    requires Numerals(numbers)
    ensures Numbers(Values(numbers)) == numbers
  {
    forall i | 0 <= i < |numbers|
      ensures Numbers(Values(numbers))[i] == numbers[i]
    {
      DecimalOfValue(numbers[i]);
    }
  }

  /** An ID is accepted exactly when it ends in the CPU suffix or in distinct GPU numbers, and gives those. */
  lemma SuffixAcceptsExactly(id: string, devices: seq<string>)
    ensures SuffixDevices(id) == Ok(devices) <==>
            exists ns: seq<nat> :: Suffixed(id, ns) && NoRepeats(ns) && devices == Devices(ns)
  {
    if ns: seq<nat> :| Suffixed(id, ns) && NoRepeats(ns) && devices == Devices(ns) {
      if ns != [] {
        var base, end :| SuffixedAs(id, base, ns, end);
        SearchFinds(base, Numbers(ns), end, 0);
        NotCpu(base, Numbers(ns), end);
        DevicesDistinct(ns);
      }
    }
    if SuffixDevices(id) == Ok(devices) {
      if EndsWith(id, "--cpu") {
        assert Suffixed(id, []) && devices == Devices([]);
      } else {
        var base, end := SearchFound(id, 0);
        var numbers := Search(id, 0).value;
        var ns := Values(numbers);
        NumbersOfValues(numbers);
        DevicesDistinct(ns);
        assert SuffixedAs(id, base, ns, end);
        assert Suffixed(id, ns) && NoRepeats(ns) && devices == Devices(ns);
      }
    }
  }

  lemma Regroup(first: string, rest: string, last: string)
    ensures first + ("-" + (rest + "cuda" + last)) == first + ("-" + rest) + "cuda" + last
  {
  }

  lemma {:induction false} LastWritten(numbers: seq<string>) returns (before: string)
    requires numbers != []
    ensures Written(numbers) == before + "cuda" + numbers[|numbers| - 1]
  {
    if |numbers| == 1 {
      before := [];
    } else {
      var rest := LastWritten(numbers[1..]);
      var first := "cuda" + numbers[0];
      before := first + ("-" + rest);
      Regroup(first, rest, numbers[|numbers| - 1]);
    }
  }

  /** How many digits a string ends with. */
  function DigitTail(s: string): (n: nat)
    ensures n <= |s|
  {
    if s == [] || !Digit(s[|s| - 1]) then 0 else 1 + DigitTail(s[..|s| - 1])
  }

  lemma {:induction false} DigitTailIs(a: string, ds: string)
    requires Digits(ds)
    ensures DigitTail(a + "cuda" + ds) == |ds|
  {
    var s := a + "cuda" + ds;
    if ds != [] {
      DigitTailIs(a, ds[..|ds| - 1]);
      assert s[..|s| - 1] == a + "cuda" + ds[..|ds| - 1];
    }
  }

  /** A number with a leading zero is refused. */
  lemma LeadingZeroRefused(before: string, digits: string)
    requires digits != [] && Digits(digits)
    ensures SuffixDevices(before + "cuda0" + digits).Err?
  {
    var id := before + "cuda0" + digits;
    assert id == before + "cuda" + ("0" + digits);
    assert id[|id| - 1] == digits[|digits| - 1];
    EndsInU(id);
    assert Digits("0" + digits);
    DigitTailIs(before, "0" + digits);
    if Search(id, 0).Some? {
      var base, end := SearchFound(id, 0);
      LastNumeral(id, base, Search(id, 0).value, end);
      TailOf(before + "cuda", "0" + digits);
    }
  }

  lemma TailOf(a: string, b: string)
    ensures (a + b)[|a + b| - |b|..] == b
  {
  }

  /** The digits at the end of an ID with a suffix are a numeral. */
  lemma LastNumeral(id: string, base: string, numbers: seq<string>, end: string)
    requires FoundAs(id, base, numbers, end) && Digit(id[|id| - 1])
    ensures CudaNumber(id[|id| - DigitTail(id)..])
  {
    var front := LastWritten(numbers);
    var last := numbers[|numbers| - 1];
    assert end == [];
    var before := base + "--" + front + "cuda";
    Reassociate(base + "--", front, last);
    assert id == before + last;
    DigitTailIs(base + "--" + front, last);
    TailOf(before, last);
  }

  lemma Reassociate(a: string, front: string, last: string)
    ensures a + (front + "cuda" + last) == a + front + "cuda" + last
  {
  }
}
