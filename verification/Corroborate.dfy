/** Two price catalogs compared: where each says a model reprices, and where their numbers differ. */
module Corroborate {
  import opened Sequences
  import opened Wrappers
  import opened Decimals
  import Pricing

  type Rates = Pricing.Rates

  /** Per-token decimal strings, as published. */
  datatype Prices = Prices(prompt: Option<string>, completion: Option<string>, cacheRead: Option<string>,
                           cacheWrite: Option<string>)

  datatype Override = Override(minPromptTokens: Option<nat>, utcStart: Option<int>, utcEnd: Option<int>, prices: Prices)

  datatype Listing = Listing(base: Prices, overrides: seq<Override>)

  datatype Band = Band(threshold: nat, rates: Rates)

  function Read(price: Option<string>): Option<real> {
    if price.Some? then PerMtokValue(price.value) else None
  }

  function RatesOf(p: Prices): Rates {
    Pricing.Rates(Read(p.prompt), Read(p.completion), Read(p.cacheRead), Read(p.cacheWrite))
  }

  predicate IsEmpty(r: Rates) {
    r.input.None? && r.output.None? && r.cachedInput.None? && r.cacheWrite.None?
  }

  /** An override measured on the clock, even partly, is no prompt-size band. */
  function PromptSizeThreshold(o: Override): Option<nat> {
    if o.utcStart.Some? || o.utcEnd.Some? then None else o.minPromptTokens
  }

  function Collected(overrides: seq<Override>): seq<Band> {
    if overrides == [] then []
    else
      var o := overrides[|overrides| - 1];
      var t := PromptSizeThreshold(o);
      Collected(overrides[..|overrides| - 1]) + (if t.Some? then [Band(t.value, RatesOf(o.prices))] else [])
  }

  function Unmodelled(overrides: seq<Override>): nat {
    if overrides == [] then 0
    else
      Unmodelled(overrides[..|overrides| - 1])
      + (if PromptSizeThreshold(overrides[|overrides| - 1]).None? then 1 else 0)
  }

  predicate Lower(a: Band, b: Band) {
    a.threshold <= b.threshold
  }

  function Ascend(bands: seq<Band>): seq<Band> {
    StableSort(bands, Lower)
  }

  function Thresholds(bands: seq<Band>): seq<nat> {
    if bands == [] then [] else [bands[0].threshold] + Thresholds(bands[1..])
  }

  /** Every prompt-size band, ascending. */
  method Bands(overrides: seq<Override>) returns (bands: seq<Band>, unmodelled: nat)
    ensures bands == Ascend(Collected(overrides)) && unmodelled == Unmodelled(overrides)
  {
    bands, unmodelled := [], 0;
    var i := 0;
    while i < |overrides|
      invariant 0 <= i <= |overrides| && bands == Collected(overrides[..i]) && unmodelled == Unmodelled(overrides[..i])
    {
      assert overrides[..i + 1][..i] == overrides[..i];
      var t := PromptSizeThreshold(overrides[i]);
      if t.Some? { bands := bands + [Band(t.value, RatesOf(overrides[i].prices))]; }
      else { unmodelled := unmodelled + 1; }
      i := i + 1;
    }
    assert overrides[..i] == overrides;
    bands := Ascend(bands);
  }

  // ---------------------------------------------------------------- the comparison

  const EPSILON := 0.000000001

  datatype Dimension = Input | CachedInput | CacheWrite | Output

  datatype Delta = Delta(band: Option<nat>, dimension: Dimension, primary: real, second: real)

  datatype Structure = Structure(primary: seq<nat>, second: seq<nat>, recorded: seq<nat>, unmodelled: nat) {
    predicate Agrees() {
      primary == second
    }
  }

  datatype Finding =
    | NotListed
    | Unpriced
    | PrimarySilent(thresholds: seq<nat>, rates: Rates)
    | Checked(structure: Structure, deltas: seq<Delta>)

  /** What the primary source says of a candidate, and what the catalog file records. */
  datatype Primary = Primary(cost: Rates, conditional: seq<Band>, recorded: seq<nat>)

  function Quote(r: Rates, d: Dimension): Option<real> {
    match d
    case Input => r.input
    case CachedInput => r.cachedInput
    case CacheWrite => r.cacheWrite
    case Output => r.output
  }

  predicate Differ(a: real, b: real) {
    a - b >= EPSILON || b - a >= EPSILON
  }

  /** A difference needs two numbers: silence on either side is none. */
  function DeltaAt(band: Option<nat>, d: Dimension, primary: Rates, second: Rates): seq<Delta> {
    var a, b := Quote(primary, d), Quote(second, d);
    if a.Some? && b.Some? && Differ(a.value, b.value) then [Delta(band, d, a.value, b.value)] else []
  }

  function Deltas(band: Option<nat>, primary: Rates, second: Rates): seq<Delta> {
    DeltaAt(band, Input, primary, second) + DeltaAt(band, CachedInput, primary, second)
    + DeltaAt(band, CacheWrite, primary, second) + DeltaAt(band, Output, primary, second)
  }

  function FirstAt(bands: seq<Band>, threshold: nat): Option<Band> {
    if bands == [] then None
    else if bands[0].threshold == threshold then Some(bands[0])
    else FirstAt(bands[1..], threshold)
  }

  function BandDeltas(primary: seq<Band>, second: seq<Band>): seq<Delta> {
    if primary == [] then []
    else
      var p := primary[|primary| - 1];
      var s := FirstAt(second, p.threshold);
      BandDeltas(primary[..|primary| - 1], second)
          + (if s.Some? then Deltas(Some(p.threshold), p.rates, s.value.rates) else [])
  }

  function Comparison(found: Primary, listed: bool, pricing: Option<Listing>): Finding {
    if !listed then NotListed
    else if pricing.None? then Unpriced
    else
      var base := RatesOf(pricing.value.base);
      var bands := Ascend(Collected(pricing.value.overrides));
      if IsEmpty(base) && bands == [] then Unpriced
      else if IsEmpty(found.cost) && found.conditional == [] then PrimarySilent(Thresholds(bands), base)
      else Check(found, base, bands, Unmodelled(pricing.value.overrides))
  }

  function Check(found: Primary, base: Rates, bands: seq<Band>, unmodelled: nat): Finding {
    var primary := Ascend(found.conditional);
    Checked(Structure(Thresholds(primary), Thresholds(bands), found.recorded, unmodelled),
            Deltas(None, found.cost, base) + BandDeltas(primary, bands))
  }

  method PushDeltas(out: seq<Delta>, band: Option<nat>, primary: Rates, second: Rates) returns (r: seq<Delta>)
    ensures r == out + Deltas(band, primary, second)
  {
    var dimensions := [Input, CachedInput, CacheWrite, Output];
    r := out;
    var i := 0;
    while i < 4
      invariant 0 <= i <= 4
      invariant r == out + (if i > 0 then DeltaAt(band, Input, primary, second) else [])
                         + (if i > 1 then DeltaAt(band, CachedInput, primary, second) else [])
                         + (if i > 2 then DeltaAt(band, CacheWrite, primary, second) else [])
                         + (if i > 3 then DeltaAt(band, Output, primary, second) else [])
    {
      var a, b := Quote(primary, dimensions[i]), Quote(second, dimensions[i]);
      if a.Some? && b.Some? && Differ(a.value, b.value) {
        r := r + [Delta(band, dimensions[i], a.value, b.value)];
      }
      i := i + 1;
    }
    assert r == out + Deltas(band, primary, second);
  }

  method FindBand(bands: seq<Band>, threshold: nat) returns (b: Option<Band>)
    ensures b == FirstAt(bands, threshold)
  {
    var i := 0;
    while i < |bands|
      invariant 0 <= i <= |bands| && FirstAt(bands, threshold) == FirstAt(bands[i..], threshold)
    {
      if bands[i].threshold == threshold { return Some(bands[i]); }
      assert bands[i..][1..] == bands[i + 1..];
      i := i + 1;
    }
    return None;
  }

  /** Only bands both sources declare. */
  method PushBandDeltas(out: seq<Delta>, primary: seq<Band>, second: seq<Band>) returns (r: seq<Delta>)
    ensures r == out + BandDeltas(primary, second)
  {
    r := out;
    var i := 0;
    while i < |primary|
      invariant 0 <= i <= |primary| && r == out + BandDeltas(primary[..i], second)
    {
      assert primary[..i + 1][..i] == primary[..i];
      var s := FindBand(second, primary[i].threshold);
      if s.Some? { r := PushDeltas(r, Some(primary[i].threshold), primary[i].rates, s.value.rates); }
      i := i + 1;
    }
    assert primary[..i] == primary;
  }

  method Compare(found: Primary, listed: bool, pricing: Option<Listing>) returns (finding: Finding)
    ensures finding == Comparison(found, listed, pricing)
  {
    if !listed { return NotListed; }
    if pricing.None? { return Unpriced; }
    var base := RatesOf(pricing.value.base);
    var bands, unmodelled := Bands(pricing.value.overrides);
    if IsEmpty(base) && bands == [] { return Unpriced; }
    if IsEmpty(found.cost) && found.conditional == [] { return PrimarySilent(Thresholds(bands), base); }
    finding := CompareBoth(found, base, bands, unmodelled);
  }

  method CompareBoth(found: Primary, base: Rates, bands: seq<Band>, unmodelled: nat) returns (finding: Finding)
    ensures finding == Check(found, base, bands, unmodelled)
  {
    var primary := Ascend(found.conditional);
    var deltas := PushDeltas([], None, found.cost, base);
    deltas := PushBandDeltas(deltas, primary, bands);
    return Checked(Structure(Thresholds(primary), Thresholds(bands), found.recorded, unmodelled), deltas);
  }

  // ---------------------------------------------------------------- the laws

  ghost predicate Ascending(s: seq<nat>) {
    s == [] || ((forall y :: y in s[1..] ==> s[0] <= y) && Ascending(s[1..]))
  }

  lemma ThresholdsCons(b: Band, rest: seq<Band>)
    ensures Thresholds([b] + rest) == [b.threshold] + Thresholds(rest)
  {
    assert ([b] + rest)[1..] == rest;
  }

  /** What is true of some band of a list is true of some threshold. */
  lemma {:induction false} ThresholdsHave(bands: seq<Band>, n: nat)
    ensures n in Thresholds(bands) <==> exists b :: b in bands && b.threshold == n
  {
    if bands == [] {
    } else {
      var head, rest := bands[0], bands[1..];
      assert bands == [head] + rest;
      ThresholdsHave(rest, n);
      assert head in bands;
    }
  }

  lemma {:induction false} SortedThresholds(bands: seq<Band>)
    requires Sorted(bands, Lower)
    ensures Ascending(Thresholds(bands))
  {
    if bands == [] {
    } else {
      var head, rest := bands[0], bands[1..];
      SortedThresholds(rest);
      assert Thresholds(bands)[1..] == Thresholds(rest);
      forall n | n in Thresholds(rest) ensures head.threshold <= n {
        ThresholdsHave(rest, n);
      }
    }
  }

  lemma {:induction false} InsertThresholds(b: Band, bands: seq<Band>)
    ensures multiset(Thresholds(Insert(b, bands, Lower))) == multiset{b.threshold} + multiset(Thresholds(bands))
  {
    if bands == [] || Lower(b, bands[0]) {
      ThresholdsCons(b, bands);
    } else {
      var head, rest := bands[0], bands[1..];
      assert bands == [head] + rest;
      InsertThresholds(b, rest);
      ThresholdsCons(head, Insert(b, rest, Lower));
      ThresholdsCons(head, rest);
    }
  }

  lemma {:induction false} AscendKeepsThresholds(bands: seq<Band>)
    ensures multiset(Thresholds(Ascend(bands))) == multiset(Thresholds(bands))
  {
    if bands == [] {
    } else {
      AscendKeepsThresholds(bands[1..]);
      InsertThresholds(bands[0], Ascend(bands[1..]));
    }
  }

  /** The bands come out ascending, with the thresholds that went in. */
  lemma SortedAscends(bands: seq<Band>)
    ensures Ascending(Thresholds(Ascend(bands)))
    ensures multiset(Thresholds(Ascend(bands))) == multiset(Thresholds(bands))
    ensures multiset(Ascend(bands)) == multiset(bands)
  {
    SortSorted(bands, Lower);
    SortedThresholds(Ascend(bands));
    AscendKeepsThresholds(bands);
    SortCounts(bands, Lower);
  }

  lemma Least(a: seq<nat>, y: nat)
    requires Ascending(a) && y in a
    ensures a[0] <= y
  {
    assert a == [a[0]] + a[1..];
  }

  lemma HeadsEqual(a: seq<nat>, b: seq<nat>)
    requires Ascending(a) && Ascending(b) && multiset(a) == multiset(b) && a != []
    ensures b != [] && a[0] == b[0]
  {
    assert a[0] in multiset(b);
    Least(b, a[0]);
    assert b[0] in multiset(a);
    Least(a, b[0]);
  }

  lemma RestsEqual(x: nat, a: seq<nat>, b: seq<nat>)
    requires multiset([x] + a) == multiset([x] + b)
    ensures multiset(a) == multiset(b)
  {
    assert multiset(a) == multiset([x] + a) - multiset{x};
    assert multiset(b) == multiset([x] + b) - multiset{x};
  }

  lemma {:induction false} AscendingUnique(a: seq<nat>, b: seq<nat>)
    requires Ascending(a) && Ascending(b) && multiset(a) == multiset(b)
    ensures a == b
  {
    if a == [] {
      assert |multiset(b)| == 0;
    } else {
      HeadsEqual(a, b);
      assert a == [a[0]] + a[1..] && b == [a[0]] + b[1..];
      RestsEqual(a[0], a[1..], b[1..]);
      AscendingUnique(a[1..], b[1..]);
    }
  }

  /** Measured by prompt size alone, from this many tokens on. */
  ghost predicate Sized(o: Override, t: nat) {
    o.minPromptTokens == Some(t) && o.utcStart.None? && o.utcEnd.None?
  }

  /** The thresholds of the overrides measured by prompt size alone, as published. */
  ghost function Boundaries(overrides: seq<Override>): seq<nat> {
    if overrides == [] then []
    else
      var o := overrides[|overrides| - 1];
      Boundaries(overrides[..|overrides| - 1])
      + if o.minPromptTokens.Some? && o.utcStart.None? && o.utcEnd.None? then [o.minPromptTokens.value] else []
  }

  lemma {:induction false} ThresholdsSnoc(bands: seq<Band>, b: Band)
    ensures Thresholds(bands + [b]) == Thresholds(bands) + [b.threshold]
  {
    if bands == [] {
      assert bands + [b] == [b] + [];
      ThresholdsCons(b, []);
    } else {
      ThresholdsSnoc(bands[1..], b);
      assert bands + [b] == [bands[0]] + (bands[1..] + [b]);
      ThresholdsCons(bands[0], bands[1..] + [b]);
    }
  }

  lemma {:induction false} CollectedIs(overrides: seq<Override>)
    ensures Thresholds(Collected(overrides)) == Boundaries(overrides)
    ensures Unmodelled(overrides) + |Boundaries(overrides)| == |overrides|
  {
    if overrides == [] {
    } else {
      var front, o := overrides[..|overrides| - 1], overrides[|overrides| - 1];
      CollectedIs(front);
      var t := PromptSizeThreshold(o);
      if t.Some? {
        ThresholdsSnoc(Collected(front), Band(t.value, RatesOf(o.prices)));
      } else {
        assert Collected(front) + [] == Collected(front);
      }
    }
  }

  lemma {:induction false} ThresholdsLong(bands: seq<Band>)
    ensures |Thresholds(bands)| == |bands|
  {
    if bands != [] { ThresholdsLong(bands[1..]); }
  }

  /** The two structures compared agree exactly when they name the same boundaries, each as often; the order either
      source publishes them in does not matter, and what is measured on the clock is none. */
  lemma AgreementIgnoresOrder(found: Primary, pricing: Listing)
    requires Comparison(found, true, Some(pricing)).Checked?
    ensures Comparison(found, true, Some(pricing)).structure.Agrees() <==>
      multiset(Thresholds(found.conditional)) == multiset(Boundaries(pricing.overrides))
  {
    var primary, second := found.conditional, Collected(pricing.overrides);
    SortedAscends(primary);
    SortedAscends(second);
    CollectedIs(pricing.overrides);
    if multiset(Thresholds(primary)) == multiset(Thresholds(second)) {
      AscendingUnique(Thresholds(Ascend(primary)), Thresholds(Ascend(second)));
    }
  }

  /** The price text a listing has for a dimension, and the rate the catalog has. */
  ghost function TextOf(p: Prices, d: Dimension): Option<string> {
    match d case Input => p.prompt case CachedInput => p.cacheRead case CacheWrite => p.cacheWrite
    case Output => p.completion
  }

  ghost function RateOf(r: Rates, d: Dimension): Option<real> {
    match d case Input => r.input case CachedInput => r.cachedInput case CacheWrite => r.cacheWrite
    case Output => r.output
  }

  ghost predicate Says(p: Prices, d: Dimension, x: real) {
    TextOf(p, d).Some? && PerMtokValue(TextOf(p, d).value) == Some(x)
  }

  ghost predicate SaysNothing(p: Prices) {
    forall d, x :: !Says(p, d, x)
  }

  ghost predicate Silent(r: Rates) {
    r == Pricing.Rates(None, None, None, None)
  }

  /** Both quote the dimension, and a billionth of a dollar or more apart. */
  ghost predicate Clashes(d: Delta, primary: Rates, second: Prices) {
    RateOf(primary, d.dimension) == Some(d.primary) && Says(second, d.dimension, d.second)
    && (d.primary - d.second >= 0.000000001 || d.second - d.primary >= 0.000000001)
  }

  lemma ReadSays(p: Prices, d: Dimension)
    ensures Quote(RatesOf(p), d).Some? ==> Says(p, d, Quote(RatesOf(p), d).value)
    ensures forall x :: Says(p, d, x) ==> Quote(RatesOf(p), d) == Some(x)
  {
  }

  lemma EmptySaysNothing(p: Prices)
    ensures IsEmpty(RatesOf(p)) <==> SaysNothing(p)
  {
    forall d ensures Quote(RatesOf(p), d).Some? ==> exists x :: Says(p, d, x) {
      ReadSays(p, d);
    }
    if !IsEmpty(RatesOf(p)) {
      var d := if RatesOf(p).input.Some? then Input else if RatesOf(p).output.Some? then Output
               else if RatesOf(p).cachedInput.Some? then CachedInput else CacheWrite;
      assert Quote(RatesOf(p), d).Some?;
    } else {
      forall d, x ensures !Says(p, d, x) { ReadSays(p, d); }
    }
  }

  /** The bands a listing comes to. */
  lemma BandsSay(overrides: seq<Override>)
    ensures var bands, boundaries := Ascend(Collected(overrides)), Boundaries(overrides);
      && Ascending(Thresholds(bands)) && multiset(Thresholds(bands)) == multiset(boundaries)
      && (bands == [] <==> boundaries == []) && Unmodelled(overrides) + |boundaries| == |overrides|
  {
    var collected := Collected(overrides);
    SortedAscends(collected);
    CollectedIs(overrides);
    ThresholdsLong(collected);
    ThresholdsLong(Ascend(collected));
    assert |multiset(Ascend(collected))| == |Ascend(collected)| && |multiset(collected)| == |collected|;
  }

  lemma BaseSays(base: Prices)
    ensures forall d, x :: RateOf(RatesOf(base), d) == Some(x) <==> Says(base, d, x)
  {
    forall d, x ensures RateOf(RatesOf(base), d) == Some(x) <==> Says(base, d, x) {
      ReadSays(base, d);
    }
  }

  lemma PricedMeans(pricing: Listing)
    ensures IsEmpty(RatesOf(pricing.base)) && Ascend(Collected(pricing.overrides)) == [] <==>
            SaysNothing(pricing.base) && Boundaries(pricing.overrides) == []
  {
    BandsSay(pricing.overrides);
    EmptySaysNothing(pricing.base);
  }

  ghost predicate SilentIs(found: Primary, pricing: Listing, thresholds: seq<nat>, rates: Rates) {
    && Silent(found.cost) && found.conditional == []
    && Ascending(thresholds) && multiset(thresholds) == multiset(Boundaries(pricing.overrides))
    && forall d, x :: RateOf(rates, d) == Some(x) <==> Says(pricing.base, d, x)
  }

  ghost predicate CheckedIs(found: Primary, pricing: Listing, structure: Structure) {
    && !(Silent(found.cost) && found.conditional == [])
    && Ascending(structure.primary) && multiset(structure.primary) == multiset(Thresholds(found.conditional))
    && Ascending(structure.second) && multiset(structure.second) == multiset(Boundaries(pricing.overrides))
    && structure.recorded == found.recorded
    && structure.unmodelled + |Boundaries(pricing.overrides)| == |pricing.overrides|
  }

  lemma SilentMeans(found: Primary, pricing: Listing)
    requires IsEmpty(found.cost) && found.conditional == []
    ensures SilentIs(found, pricing, Thresholds(Ascend(Collected(pricing.overrides))), RatesOf(pricing.base))
  {
    BandsSay(pricing.overrides);
    BaseSays(pricing.base);
  }

  lemma CheckedMeans(found: Primary, pricing: Listing)
    requires !(IsEmpty(found.cost) && found.conditional == [])
    ensures CheckedIs(found, pricing, Structure(Thresholds(Ascend(found.conditional)),
                                                Thresholds(Ascend(Collected(pricing.overrides))), found.recorded,
                                                Unmodelled(pricing.overrides)))
  {
    BandsSay(pricing.overrides);
    SortedAscends(found.conditional);
  }

  /** What comparing a candidate comes to. It is not listed; or listed at no readable price, neither a base nor a band;
      or priced where the catalog is silent, which is given what the listing says; or compared. Boundaries come out
      ascending, and every override that is not measured by prompt size alone is counted. */
  lemma OutcomeLaw(found: Primary, listed: bool, pricing: Option<Listing>)
    ensures var unpriced := pricing.None? ||
        (SaysNothing(pricing.value.base) && Boundaries(pricing.value.overrides) == []);
      match Comparison(found, listed, pricing)
      case NotListed => !listed
      case Unpriced => listed && unpriced
      case PrimarySilent(thresholds, rates) => listed && !unpriced && SilentIs(found, pricing.value, thresholds, rates)
      case Checked(structure, _) => listed && !unpriced && CheckedIs(found, pricing.value, structure)
  {
    if pricing.Some? {
      PricedMeans(pricing.value);
      if IsEmpty(found.cost) && found.conditional == [] {
        SilentMeans(found, pricing.value);
      } else {
        CheckedMeans(found, pricing.value);
      }
    }
  }

  /** Two quotes of one dimension that differ. */
  ghost predicate Conflict(d: Delta, primary: Rates, second: Rates) {
    Quote(primary, d.dimension) == Some(d.primary) && Quote(second, d.dimension) == Some(d.second)
        && Differ(d.primary, d.second)
  }

  lemma DeltasAre(band: Option<nat>, primary: Rates, second: Rates, d: Delta)
    ensures d in Deltas(band, primary, second) <==> d.band == band && Conflict(d, primary, second)
  {
    match d.dimension
    case Input => assert d in DeltaAt(band, Input, primary, second) <==> d.band == band && Conflict(d, primary, second);
    case CachedInput => assert d in DeltaAt(band, CachedInput, primary, second) <==>
        d.band == band && Conflict(d, primary, second);
    case CacheWrite => assert d in DeltaAt(band, CacheWrite, primary, second) <==>
        d.band == band && Conflict(d, primary, second);
    case Output => assert d in DeltaAt(band, Output, primary, second) <==>
        d.band == band && Conflict(d, primary, second);
  }

  /** Both sources have a band at that threshold, and quote it differently. */
  ghost predicate BandConflict(d: Delta, p: Band, second: seq<Band>) {
    d.band == Some(p.threshold) && FirstAt(second, p.threshold).Some?
    && Conflict(d, p.rates, FirstAt(second, p.threshold).value.rates)
  }

  lemma {:induction false} BandDeltasAre(primary: seq<Band>, second: seq<Band>, d: Delta)
    ensures d in BandDeltas(primary, second) <==> exists p :: p in primary && BandConflict(d, p, second)
  {
    if primary == [] {
    } else {
      var front, p := primary[..|primary| - 1], primary[|primary| - 1];
      assert primary == front + [p];
      BandDeltasAre(front, second, d);
      var s := FirstAt(second, p.threshold);
      if s.Some? { DeltasAre(Some(p.threshold), p.rates, s.value.rates, d); }
      if d in BandDeltas(front, second) {
        var x :| x in front && BandConflict(d, x, second);
        assert x in primary;
      }
      assert p in primary;
    }
  }

  /** The first override published for this prompt size. */
  ghost predicate FirstSized(overrides: seq<Override>, t: nat, o: Override) {
    exists i :: 0 <= i < |overrides| && overrides[i] == o && Sized(o, t)
      && forall j :: 0 <= j < i ==> !Sized(overrides[j], t)
  }

  lemma {:induction false} FirstAtFilters(bands: seq<Band>, t: nat)
    ensures var level := Filter(bands, (b: Band) => b.threshold == t);
      FirstAt(bands, t) == if level == [] then None else Some(level[0])
  {
    if bands != [] { FirstAtFilters(bands[1..], t); }
  }

  lemma {:induction false} FirstAtSnoc(bands: seq<Band>, b: Band, t: nat)
    ensures FirstAt(bands + [b], t) ==
      if FirstAt(bands, t).Some? then FirstAt(bands, t) else if b.threshold == t then Some(b) else None
  {
    if bands == [] {
      assert bands + [b] == [b] && [b][1..] == [];
    } else {
      FirstAtSnoc(bands[1..], b, t);
      assert (bands + [b])[1..] == bands[1..] + [b];
    }
  }

  lemma {:induction false} FirstAtCollected(overrides: seq<Override>, t: nat) returns (o: Override)
    ensures FirstAt(Collected(overrides), t).None? ==> forall x :: x in overrides ==> !Sized(x, t)
    ensures FirstAt(Collected(overrides), t).Some? ==>
      FirstSized(overrides, t, o) && FirstAt(Collected(overrides), t) == Some(Band(t, RatesOf(o.prices)))
  {
    o := Override(None, None, None, Prices(None, None, None, None));
    if overrides != [] {
      var n := |overrides| - 1;
      var front, last := overrides[..n], overrides[n];
      o := FirstAtCollected(front, t);
      assert overrides == front + [last];
      var size := PromptSizeThreshold(last);
      if size.Some? {
        FirstAtSnoc(Collected(front), Band(size.value, RatesOf(last.prices)), t);
      } else {
        assert Collected(front) + [] == Collected(front);
      }
      if FirstAt(Collected(front), t).Some? {
        var i :| 0 <= i < n && front[i] == o && Sized(o, t) && forall j :: 0 <= j < i ==> !Sized(front[j], t);
        assert overrides[i] == o && forall j :: 0 <= j < i ==> overrides[j] == front[j];
      } else if size == Some(t) {
        o := last;
        assert overrides[n] == o && forall j :: 0 <= j < n ==> overrides[j] in front;
      }
    }
  }

  /** Sorting keeps which band of a size comes first. */
  lemma FirstStays(overrides: seq<Override>, t: nat)
    ensures FirstAt(Ascend(Collected(overrides)), t) == FirstAt(Collected(overrides), t)
  {
    var level := (b: Band) => b.threshold == t;
    SortStable(Collected(overrides), Lower, level);
    FirstAtFilters(Collected(overrides), t);
    FirstAtFilters(Ascend(Collected(overrides)), t);
  }

  lemma OneFirst(overrides: seq<Override>, t: nat, a: Override, b: Override)
    requires FirstSized(overrides, t, a) && FirstSized(overrides, t, b)
    ensures a == b
  {
  }

  lemma ConflictClashes(d: Delta, primary: Rates, second: Prices)
    ensures Conflict(d, primary, RatesOf(second)) <==> Clashes(d, primary, second)
  {
    ReadSays(second, d.dimension);
  }

  lemma BandClashes(d: Delta, p: Band, overrides: seq<Override>)
    ensures BandConflict(d, p, Ascend(Collected(overrides))) <==>
      d.band == Some(p.threshold) && exists o :: FirstSized(overrides, p.threshold, o) && Clashes(d, p.rates, o.prices)
  {
    FirstStays(overrides, p.threshold);
    var o := FirstAtCollected(overrides, p.threshold);
    if FirstAt(Collected(overrides), p.threshold).Some? {
      ConflictClashes(d, p.rates, o.prices);
      forall x | FirstSized(overrides, p.threshold, x) ensures x == o { OneFirst(overrides, p.threshold, x, o); }
    } else {
      forall x ensures !FirstSized(overrides, p.threshold, x) {}
    }
  }

  /** Every difference reported is one, and none is missed: at the base, or in a band of the catalog whose size the
      listing has too, as first published there. */
  lemma DeltaLaw(found: Primary, pricing: Listing, d: Delta)
    requires Comparison(found, true, Some(pricing)).Checked?
    ensures d in Comparison(found, true, Some(pricing)).deltas <==>
      || (d.band == None && Clashes(d, found.cost, pricing.base))
      || (exists p, o :: p in found.conditional && d.band == Some(p.threshold)
            && FirstSized(pricing.overrides, p.threshold, o) && Clashes(d, p.rates, o.prices))
  {
    var bands := Ascend(Collected(pricing.overrides));
    DeltasAre(None, found.cost, RatesOf(pricing.base), d);
    BandDeltasAre(Ascend(found.conditional), bands, d);
    ConflictClashes(d, found.cost, pricing.base);
    SortedAscends(found.conditional);
    forall p ensures p in Ascend(found.conditional) <==> p in found.conditional {
      assert p in multiset(Ascend(found.conditional)) <==> p in multiset(found.conditional);
    }
    forall p | p in found.conditional
      ensures BandConflict(d, p, bands) <==>
        d.band == Some(p.threshold)
        && exists o :: FirstSized(pricing.overrides, p.threshold, o) && Clashes(d, p.rates, o.prices)
    {
      BandClashes(d, p, pricing.overrides);
    }
  }
}
