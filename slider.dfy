/**
 * The range slider of a number facet: the `low-high` text it submits, the
 * power-of-two step scale of the RAM and CPU sliders, and their ceiling
 * labels (`>1024` GB, `>64` cores). Slider positions are integers here.
 */
module Slider {
  import opened Collections
  import opened SearchRequests
  import opened Decimal

  /** RAM ceiling in GB and core-count ceiling, from the shared filter constants. */
  const RAM: int := 1024
  const CORES: int := 64

  /** The label kinds the translate callback distinguishes; every other kind of the widget is `Other`. */
  datatype LabelType = Low | High | Other

  predicate OccursAt(s: string, sub: string, i: int) {
    0 <= i && i + |sub| <= |s| && s[i..i + |sub|] == sub
  }

  /** `s.includes(sub)`. */
  predicate Contains(s: string, sub: string) {
    exists i :: 0 <= i <= |s| && OccursAt(s, sub, i)
  }

  function Pow2(k: nat): (r: nat)
    ensures r >= 1
  {
    if k == 0 then 1 else 2 * Pow2(k - 1)
  }

  lemma {:induction false} Pow2Increasing(j: nat, k: nat)
    requires j < k
    ensures Pow2(j) < Pow2(k)
  {
    if j < k - 1 {
      Pow2Increasing(j, k - 1);
    }
  }

  /** The step scale for a ceiling `n`: every power of two below `n`, in order, then `n + 1`. */
  ghost predicate StepsFor(steps: seq<int>, n: int) {
    && |steps| >= 1
    && (forall k {:trigger steps[k]} :: 0 <= k < |steps| - 1 ==> steps[k] == Pow2(k) && Pow2(k) < n)
    && Pow2(|steps| - 1) >= n
    && steps[|steps| - 1] == n + 1
  }

  /** `generateSteps`: the loop runs while 2^i is below the ceiling (i < log2 n). */
  method GenerateSteps(upperBound: int) returns (steps: seq<int>)
    ensures StepsFor(steps, upperBound)
    ensures forall j, k :: 0 <= j < k < |steps| ==> steps[j] < steps[k]
  {
    steps := [];
    var i := 0;
    var power := 1;
    while power < upperBound
      invariant power == Pow2(i) && |steps| == i
      invariant forall k {:trigger steps[k]} :: 0 <= k < i ==> steps[k] == Pow2(k) && Pow2(k) < upperBound
      decreases upperBound - power
    {
      steps := steps + [power];
      power := 2 * power;
      i := i + 1;
    }
    steps := steps + [upperBound + 1];
    StepsIncreasing(steps, upperBound);
  }

  /** A step scale is strictly increasing. */
  lemma StepsIncreasing(steps: seq<int>, n: int)
    requires StepsFor(steps, n)
    ensures forall j, k :: 0 <= j < k < |steps| ==> steps[j] < steps[k]
  {
    forall j, k | 0 <= j < k < |steps|
      ensures steps[j] < steps[k]
    {
      if k < |steps| - 1 {
        Pow2Increasing(j, k);
      }
    }
  }

  /** Every power of two before the last step is below the ceiling. */
  lemma PowerBelowCeiling(s: seq<int>, n: int, k: nat)
    requires StepsFor(s, n) && k < |s| - 1
    ensures Pow2(k) < n
  {
    assert s[k] == Pow2(k);
  }

  /** A ceiling has one step scale. */
  lemma StepsUnique(s: seq<int>, t: seq<int>, n: int)
    requires StepsFor(s, n) && StepsFor(t, n)
    ensures s == t
  {
    if |t| < |s| {
      PowerBelowCeiling(s, n, |t| - 1);
      assert false;
    } else if |s| < |t| {
      PowerBelowCeiling(t, n, |s| - 1);
      assert false;
    }
    forall k | 0 <= k < |s|
      ensures s[k] == t[k]
    {
      if k < |s| - 1 {
        assert s[k] == Pow2(k) && t[k] == Pow2(k);
      }
    }
  }

  /** A scale has one step per power of two below the ceiling, plus the last: `m + 1` when 2^m is the first to reach it. */
  lemma StepsCount(s: seq<int>, n: int, m: nat)
    requires StepsFor(s, n) && Pow2(m) >= n && (m > 0 ==> Pow2(m - 1) < n)
    ensures |s| == m + 1
  {
    var last := |s| - 1;
    if last < m {
      if last < m - 1 {
        Pow2Increasing(last, m - 1);
      }
      assert false;
    } else if last > m {
      PowerBelowCeiling(s, n, m);
      assert false;
    }
  }

  /** The RAM scale has 11 steps: 1, 2, ..., 512, then 1025. */
  lemma RamSteps(s: seq<int>)
    requires StepsFor(s, RAM)
    ensures |s| == 11 && s[9] == 512 && s[10] == RAM + 1
  {
    assert Pow2(9) == 512 && Pow2(10) == 1024;
    StepsCount(s, RAM, 10);
    assert s[9] == Pow2(9);
  }

  /** The core scale has 7 steps: 1, 2, ..., 32, then 65; 64 itself is not a step. */
  lemma CoreSteps(s: seq<int>)
    requires StepsFor(s, CORES)
    ensures |s| == 7 && s[5] == 32 && s[6] == CORES + 1
    ensures forall k :: 0 <= k < |s| ==> s[k] != CORES
  {
    assert Pow2(5) == 32 && Pow2(6) == 64;
    StepsCount(s, CORES, 6);
    forall k | 0 <= k < 6
      ensures s[k] <= 32
    {
      assert s[k] == Pow2(k);
      if k < 5 { Pow2Increasing(k, 5); }
    }
  }

  /** `high` lowered to the saved upper bound when it is greater; without a bound it is kept. */
  function ClampHigh(high: int, bound: Option<int>): (r: int)
    ensures r <= high
    ensures bound.Some? ==> r <= bound.value
    ensures r == high || (bound.Some? && r == bound.value)
    ensures bound.None? ==> r == high
  {
    if bound.Some? && high > bound.value then bound.value else high
  }

  /** `low` raised to the saved lower bound when it is smaller; without a bound it is kept. */
  function RaiseLow(low: int, bound: Option<int>): (r: int)
    ensures r >= low
    ensures bound.Some? ==> r >= bound.value
    ensures r == low || (bound.Some? && r == bound.value)
    ensures bound.None? ==> r == low
  {
    if bound.Some? && low < bound.value then bound.value else low
  }

  /** The bounds a slider submits: clamped, and a CPU high of exactly 64 cores sent as 1024. */
  function SubmittedBounds(name: string, savedLow: Option<int>, savedHigh: Option<int>, low: int, high: int): (r: (int, int))
    ensures r.0 == RaiseLow(low, savedLow)
    ensures Contains(name, "cpu") && ClampHigh(high, savedHigh) == CORES ==> r.1 == 1024
    ensures !(Contains(name, "cpu") && ClampHigh(high, savedHigh) == CORES) ==> r.1 == ClampHigh(high, savedHigh)
  {
    var clamped := ClampHigh(high, savedHigh);
    (RaiseLow(low, savedLow), if Contains(name, "cpu") && clamped == CORES then 1024 else clamped)
  }

  /** Labels with a ceiling marker: a High label above `threshold` reads `>shown`, other Low and High labels the number. */
  function DisplayWithCeiling(value: int, kind: LabelType, threshold: int, shown: int): (r: string)
    requires shown >= 0
    ensures kind == Other <==> r == ""
    ensures kind == High && value > threshold ==> r == ">" + IntToString(shown)
    ensures kind == Low || (kind == High && value <= threshold) ==> ParseInt(r) == Some(value)
    ensures |r| > 0 ==> (r[0] == '>' <==> kind == High && value > threshold)
  {
    ParseIntToString(value);
    match kind
    case Low => IntToString(value)
    case High => if value > threshold then ">" + IntToString(shown) else IntToString(value)
    case Other => ""
  }

  /** `displayRAM`: above 1024 GB the high label reads `>1024`. */
  function DisplayRAM(value: int, kind: LabelType): (r: string)
    ensures kind == High && value > RAM ==> r == ">1024"
    ensures kind == Low || (kind == High && value <= RAM) ==> ParseInt(r) == Some(value)
    ensures kind == Other ==> r == ""
  {
    assert IntToString(RAM) == "1024" by {
      assert NatToString(102) == "102";
    }
    DisplayWithCeiling(value, kind, RAM, RAM)
  }

  /** `displayCores`: the high label reads `>64` only above 65 cores. */
  function DisplayCores(value: int, kind: LabelType): (r: string)
    ensures kind == High && value > CORES + 1 ==> r == ">64"
    ensures kind == Low || (kind == High && value <= CORES + 1) ==> ParseInt(r) == Some(value)
    ensures kind == Other ==> r == ""
  {
    assert IntToString(CORES) == "64";
    DisplayWithCeiling(value, kind, CORES + 1, CORES)
  }

  /** On the core scale no step is shown with the `>64` marker: the top step 65 is not above the threshold. */
  lemma CoreMarkerUnreachable(s: seq<int>, k: int)
    requires StepsFor(s, CORES) && 0 <= k < |s|
    ensures ParseInt(DisplayCores(s[k], High)) == Some(s[k])
  {
    CoreSteps(s);
    if k < |s| - 1 {
      assert s[k] == Pow2(k);
      Pow2Increasing(k, 6);
    }
  }

  /** The translate callback: RAM and CPU sliders use their ceiling labels, any other slider shows the number. */
  function Translate(name: string, value: int, kind: LabelType): (r: string)
    ensures name == "ram" ==> r == DisplayRAM(value, kind)
    ensures name == "cpu" ==> r == DisplayCores(value, kind)
    ensures name != "ram" && name != "cpu" ==> ParseInt(r) == Some(value)
  {
    ParseIntToString(value);
    if name == "ram" then DisplayRAM(value, kind)
    else if name == "cpu" then DisplayCores(value, kind)
    else IntToString(value)
  }

  /** The widget's change event, whose two fields `computeSubmitValue` overwrites. */
  class SliderChange {
    var value: int
    var highValue: int

    constructor (value: int, highValue: int)
      ensures this.value == value && this.highValue == highValue
    {
      this.value := value;
      this.highValue := highValue;
    }
  }

  class SliderComponent {
    /** The number facet the slider shows. */
    var filterResponse: FilterResponse
    /**
     * The `value` and `highValue` properties of the copy taken at
     * initialisation; a response of the declared shape has neither.
     */
    var savedValue: Option<int>
    var savedHighValue: Option<int>
    var floor: Option<int>
    var ceil: Option<int>
    var stepsArray: Option<seq<int>>

    constructor (response: FilterResponse)
      ensures filterResponse == response
      ensures savedValue.None? && savedHighValue.None? && floor.None? && ceil.None? && stepsArray.None?
    {
      filterResponse := response;
      savedValue, savedHighValue := None, None;
      floor, ceil := None, None;
      stepsArray := None;
    }

    /** `pushStepArray`: power-of-two steps for the RAM and CPU sliders, none for others. */
    method PushStepArray()
      modifies this
      ensures filterResponse == old(filterResponse)
      ensures savedValue == old(savedValue) && savedHighValue == old(savedHighValue)
      ensures floor == old(floor) && ceil == old(ceil)
      ensures filterResponse.name == "ram" ==> stepsArray.Some? && StepsFor(stepsArray.value, RAM)
      ensures filterResponse.name == "cpu" ==> stepsArray.Some? && StepsFor(stepsArray.value, CORES)
      ensures filterResponse.name != "ram" && filterResponse.name != "cpu" ==> stepsArray == old(stepsArray)
    {
      if filterResponse.name == "ram" {
        var steps := GenerateSteps(RAM);
        stepsArray := Some(steps);
      } else if filterResponse.name == "cpu" {
        var steps := GenerateSteps(CORES);
        stepsArray := Some(steps);
      }
    }

    /**
     * `ngOnInit`: the step scale, the saved copy, and for sliders other than
     * CPU and RAM a floor and ceiling at the facet's min and max.
     */
    method NgOnInit(copiedValue: Option<int>, copiedHighValue: Option<int>)
      modifies this
      ensures filterResponse == old(filterResponse)
      ensures savedValue == copiedValue && savedHighValue == copiedHighValue
      ensures filterResponse.name == "ram" ==> stepsArray.Some? && StepsFor(stepsArray.value, RAM)
      ensures filterResponse.name == "cpu" ==> stepsArray.Some? && StepsFor(stepsArray.value, CORES)
      ensures filterResponse.name != "cpu" && filterResponse.name != "ram" ==>
        floor == Some(filterResponse.min) && ceil == Some(filterResponse.max) && stepsArray == old(stepsArray)
      ensures filterResponse.name == "cpu" || filterResponse.name == "ram" ==>
        floor == old(floor) && ceil == old(ceil)
    {
      PushStepArray();
      savedValue := copiedValue;
      savedHighValue := copiedHighValue;
      if filterResponse.name != "cpu" && filterResponse.name != "ram" {
        floor := Some(filterResponse.min);
        ceil := Some(filterResponse.max);
      }
    }

    /** `computeSubmitValue`: the event is clamped in place and written as `low-high`. */
    method ComputeSubmitValue(option: SliderChange) returns (s: string)
      modifies option
      ensures (option.value, option.highValue) ==
        SubmittedBounds(filterResponse.name, savedValue, savedHighValue, old(option.value), old(option.highValue))
      ensures s == FormatRange(option.value, option.highValue)
      ensures ParseRange(s) == Some((option.value, option.highValue))
    {
      if savedHighValue.Some? && option.highValue > savedHighValue.value {
        option.highValue := savedHighValue.value;
      }
      if savedValue.Some? && option.value < savedValue.value {
        option.value := savedValue.value;
      }
      if Contains(filterResponse.name, "cpu") && option.highValue == CORES {
        option.highValue := 1024;
      }
      s := IntToString(option.value) + "-" + IntToString(option.highValue);
      ParseFormatRange(option.value, option.highValue);
    }

    /** `onRangeSelected`: a slider change on this facet's type and path, named by the submitted range. */
    method OnRangeSelected(option: SliderChange) returns (sel: FilterSelection)
      modifies option
      ensures (option.value, option.highValue) ==
        SubmittedBounds(filterResponse.name, savedValue, savedHighValue, old(option.value), old(option.highValue))
      ensures sel == FilterSelection(filterResponse.facetType, filterResponse.path,
        Some(Bucket(FormatRange(option.value, option.highValue), None)), Some(SLIDER_CHANGE))
    {
      var selection := ComputeSubmitValue(option);
      sel := FilterSelection(filterResponse.facetType, filterResponse.path, Some(Bucket(selection, None)), Some(SLIDER_CHANGE));
    }
  }

  /** Without saved bounds a slider other than CPU submits exactly the positions it was moved to. */
  lemma UnboundedSubmitIsVerbatim(name: string, low: int, high: int)
    requires !Contains(name, "cpu")
    ensures ParseRange(FormatRange(SubmittedBounds(name, None, None, low, high).0, SubmittedBounds(name, None, None, low, high).1))
      == Some((low, high))
  {
    ParseFormatRange(low, high);
  }

  /** A CPU slider released at 64 cores submits 1024 as its high end. */
  lemma CpuCeilingSubmits1024(low: int)
    ensures SubmittedBounds("cpu", None, None, low, CORES).1 == 1024
  {
    assert OccursAt("cpu", "cpu", 0);
  }
}
