/** What a request is held for at admission and what it is charged at settlement, and why the second never
    exceeds the first. */
module Pricing {
  import opened Wrappers
  import opened Ordering

  // ---------------------------------------------------------------- rate tables

  /** USD per million tokens, each dimension stated or not. */
  datatype Rates = Rates(input: Option<real>, output: Option<real>, cachedInput: Option<real>, cacheWrite: Option<real>)

  datatype Conditional = Conditional(minPromptTokens: nat, rates: Rates)

  datatype Schedule = Schedule(base: Rates, conditional: seq<Conditional>)

  function Or(a: Option<real>, b: Option<real>): Option<real> {
    if a.Some? then a else b
  }

  function OrZero(a: Option<real>): real {
    if a.Some? then a.value else 0.0
  }

  function EffectiveCached(r: Rates): Option<real> {
    Or(r.cachedInput, r.input)
  }

  function EffectiveWrite(r: Rates): Option<real> {
    Or(r.cacheWrite, r.input)
  }

  function Dearer(a: Option<real>, b: Option<real>): Option<real> {
    if a.Some? && b.Some? then Some(if a.value >= b.value then a.value else b.value) else Or(a, b)
  }

  function DearestPrompt(r: Rates): Option<real> {
    Dearer(Dearer(r.input, EffectiveCached(r)), EffectiveWrite(r))
  }

  /** The eligible band with the highest threshold, the later one of two alike. */
  function Best(bands: seq<Conditional>, prompt: nat): Option<Conditional> {
    if bands == [] then None
    else
      var earlier := Best(bands[..|bands| - 1], prompt);
      var band := bands[|bands| - 1];
      if prompt < band.minPromptTokens then earlier
      else if earlier.Some? && earlier.value.minPromptTokens > band.minPromptTokens then earlier
      else Some(band)
  }

  /** The table a measured prompt is billed at. */
  function AtPromptTokens(s: Schedule, prompt: nat): Rates {
    var band := Best(s.conditional, prompt);
    if band.Some? then band.value.rates else s.base
  }

  function Tables(s: Schedule): seq<Rates> {
    [s.base] + seq(|s.conditional|, i requires 0 <= i < |s.conditional| => s.conditional[i].rates)
  }

  function Dearest(tables: seq<Rates>, pick: Rates -> Option<real>): Option<real> {
    if tables == [] then None else Dearer(Dearest(tables[..|tables| - 1], pick), pick(tables[|tables| - 1]))
  }

  function WorstCase(s: Schedule): Rates {
    if s.conditional == [] then s.base
    else Rates(Dearest(Tables(s), (r: Rates) => r.input), Dearest(Tables(s), (r: Rates) => r.output),
               Dearest(Tables(s), (r: Rates) => EffectiveCached(r)),
               Dearest(Tables(s), (r: Rates) => EffectiveWrite(r)))
  }

  function ReservationRates(s: Schedule): Rates {
    WorstCase(s).(input := DearestPrompt(WorstCase(s)))
  }

  // ---------------------------------------------------------------- usage and its price

  datatype Usage = Usage(prompt: nat, completion: nat, cached: nat, written: nat)

  const MAX_RATE_PER_MTOK := 1000000.0

  /** A rate that can be billed with; anything else is a metering failure, never a free dimension. */
  function BillableRate(rate: real): Option<real> {
    if 0.0 <= rate <= MAX_RATE_PER_MTOK then Some(rate) else None
  }

  function AtMost(a: nat, b: nat): nat {
    if a <= b then a else b
  }

  /** The prompt is split three ways, cached first, then written, then the rest, each at its own rate. */
  function PromptPriced(r: Rates, u: Usage): real {
    var cached := AtMost(u.cached, u.prompt);
    var written := AtMost(u.written, u.prompt - cached);
    var uncached := u.prompt - cached - written;
    uncached as real * OrZero(r.input) + cached as real * OrZero(EffectiveCached(r))
        + written as real * OrZero(EffectiveWrite(r))
  }

  function Priced(r: Rates, u: Usage): real {
    PromptPriced(r, u) + u.completion as real * OrZero(r.output)
  }

  function UsageCost(r: Rates, u: Usage): Option<real> {
    var input := BillableRate(OrZero(r.input));
    var output := BillableRate(OrZero(r.output));
    var cachedRate := BillableRate(OrZero(EffectiveCached(r)));
    var writeRate := BillableRate(OrZero(EffectiveWrite(r)));
    if input.None? || output.None? || cachedRate.None? || writeRate.None? then None
    else
      Some(Priced(r, u) / 1000000.0)
  }

  // ---------------------------------------------------------------- whose price

  const FEE_RATE := 0.05
  const HOUSE_RATE := 1.0

  function ApplyFee(catalogCost: real, rate: real): real {
    catalogCost * rate
  }

  /** The multiplier a reservation is sized at, over every candidate of the catalog's route. */
  function ReservationRate(candidates: seq<Definition>, covered: map<string, bool>): real {
    if covered != map[] && forall d :: d in candidates ==> d.provider in covered && !covered[d.provider]
    then FEE_RATE else HOUSE_RATE
  }

  /** The multiplier an attempt settles at. */
  function ServedRate(c: Rung): real {
    if c.credential == Byok then FEE_RATE else HOUSE_RATE
  }

  /** The credentials the route opened are the ones the coverage read promised: the customer's key where the
      provider is covered, its house twin only where the customer opted in, the house's key elsewhere. */
  predicate Opens(covered: map<string, bool>, c: Rung) {
    match c.credential
    case House => c.definition.provider !in covered
    case Byok => c.definition.provider in covered
    case Twin => c.definition.provider in covered && covered[c.definition.provider]
  }

  datatype Posture = Posture(catalogBasis: Option<real>, whollyByok: bool)

  /** What admission is told about the monthly allowance. `catalogCost` is the full sizing's price. */
  function ReservationPosture(candidates: seq<Definition>, covered: map<string, bool>, catalogCost: real): Posture {
    if forall d :: d in candidates ==> d.provider !in covered then Posture(None, false)
    else Posture(Some(ApplyFee(catalogCost, HOUSE_RATE)), ReservationRate(candidates, covered) == FEE_RATE)
  }

  // ---------------------------------------------------------------- bands

  /** The band chosen is the highest one the prompt reaches, and the base table only when it reaches none. */
  lemma {:induction false} BestIs(bands: seq<Conditional>, prompt: nat)
    ensures var best := Best(bands, prompt);
      if best.Some? then
        && best.value in bands && best.value.minPromptTokens <= prompt
        && forall b :: b in bands && b.minPromptTokens <= prompt ==> b.minPromptTokens <= best.value.minPromptTokens
      else forall b :: b in bands ==> prompt < b.minPromptTokens
  {
    if bands == [] {
    } else {
      BestIs(bands[..|bands| - 1], prompt);
      assert bands == bands[..|bands| - 1] + [bands[|bands| - 1]];
    }
  }

  /** A band the prompt reaches, and no reached one has a higher threshold, nor a later one the same. */
  ghost predicate Chosen(bands: seq<Conditional>, prompt: nat, i: nat) {
    && i < |bands| && bands[i].minPromptTokens <= prompt
    && forall j :: 0 <= j < |bands| && bands[j].minPromptTokens <= prompt ==>
         bands[j].minPromptTokens < bands[i].minPromptTokens
         || (bands[j].minPromptTokens == bands[i].minPromptTokens && j <= i)
  }

  lemma {:induction false} BestIsChosen(bands: seq<Conditional>, prompt: nat) returns (i: nat)
    ensures Best(bands, prompt).None? ==> forall b :: b in bands ==> prompt < b.minPromptTokens
    ensures Best(bands, prompt).Some? ==> Chosen(bands, prompt, i) && Best(bands, prompt).value == bands[i]
  {
    i := 0;
    if bands != [] {
      var front := bands[..|bands| - 1];
      i := BestIsChosen(front, prompt);
      assert bands == front + [bands[|bands| - 1]];
      if Best(bands, prompt) != Best(front, prompt) || Best(bands, prompt) == Some(bands[|bands| - 1]) {
        i := |bands| - 1;
        forall j | 0 <= j < |front| && front[j].minPromptTokens <= prompt
          ensures front[j].minPromptTokens <= bands[i].minPromptTokens
        {
          assert front[j] in front;
        }
      }
    }
  }

  lemma OneChosen(bands: seq<Conditional>, prompt: nat, i: nat, k: nat)
    requires Chosen(bands, prompt, i) && Chosen(bands, prompt, k)
    ensures i == k
  {
  }

  /** What a measured prompt is billed at: the rates of the band chosen, if the prompt reaches any, and else the base
      rates. */
  lemma BandLaw(s: Schedule, prompt: nat)
    ensures if forall b :: b in s.conditional ==> prompt < b.minPromptTokens
            then AtPromptTokens(s, prompt) == s.base
            else exists i: nat ::
              Chosen(s.conditional, prompt, i) && AtPromptTokens(s, prompt) == s.conditional[i].rates
    ensures forall i: nat, k: nat :: Chosen(s.conditional, prompt, i) && Chosen(s.conditional, prompt, k) ==> i == k
  {
    var i := BestIsChosen(s.conditional, prompt);
    BestIs(s.conditional, prompt);
    forall j: nat, k: nat | Chosen(s.conditional, prompt, j) && Chosen(s.conditional, prompt, k) ensures j == k {
      OneChosen(s.conditional, prompt, j, k);
    }
  }

  /** A stated rate, or else another, or else nothing. */
  ghost function Stated(a: Option<real>, b: Option<real>): real {
    match a case Some(x) => x case None => match b case Some(y) => y case None => 0.0
  }

  /** What a call costs, to the token: the prompt falls into cached tokens first, then written ones, then the rest, each
      at its own rate, the first two at the input rate where theirs is not stated; the completion at the output rate;
      all per million. No price at all where one of the four rates is negative or above a million. */
  lemma CostLaw(r: Rates, u: Usage, cached: nat, written: nat, rest: nat)
    requires cached + written + rest == u.prompt && cached <= u.cached && written <= u.written
    requires (cached < u.cached ==> written == rest == 0) && (written < u.written ==> rest == 0)
    ensures var input, output := Stated(r.input, None), Stated(r.output, None);
      var hit, write := Stated(r.cachedInput, r.input), Stated(r.cacheWrite, r.input);
      && (UsageCost(r, u).None? <==> exists x :: x in [input, output, hit, write] && (x < 0.0 || x > 1000000.0))
      && (UsageCost(r, u).Some? ==>
            UsageCost(r, u).value * 1000000.0 ==
            cached as real * hit + written as real * write + rest as real * input + u.completion as real * output)
  {
    var rates := [Stated(r.input, None), Stated(r.output, None), Stated(r.cachedInput, r.input),
                  Stated(r.cacheWrite, r.input)];
    assert rates[0] in rates && rates[1] in rates && rates[2] in rates && rates[3] in rates;
    assert cached == AtMost(u.cached, u.prompt) && written == AtMost(u.written, u.prompt - cached);
  }

  lemma {:induction false} DearestIs(tables: seq<Rates>, pick: Rates -> Option<real>, t: Rates)
    requires t in tables && pick(t).Some?
    ensures Dearest(tables, pick).Some? && pick(t).value <= Dearest(tables, pick).value
  {
    var front := tables[..|tables| - 1];
    assert tables == front + [tables[|tables| - 1]];
    if t in front {
      DearestIs(front, pick, t);
    }
  }

  /** Every table a prompt can land on is one of the schedule's. */
  lemma BandInTables(s: Schedule, prompt: nat)
    ensures AtPromptTokens(s, prompt) in Tables(s)
  {
    BestIs(s.conditional, prompt);
    var band := Best(s.conditional, prompt);
    if band.Some? {
      var i :| 0 <= i < |s.conditional| && s.conditional[i] == band.value;
      assert Tables(s)[i + 1] == band.value.rates;
    } else {
      assert Tables(s)[0] == s.base;
    }
  }

  ghost predicate NoDearer(a: Option<real>, b: Option<real>) {
    a.Some? ==> b.Some? && a.value <= b.value
  }

  /** The reservation's prompt rate is no less than any rate a prompt token can be billed at in any band, and its
      output rate no less than any band's. */
  lemma BandsBelow(s: Schedule, prompt: nat)
    ensures var band, hold := AtPromptTokens(s, prompt), ReservationRates(s);
      && NoDearer(band.input, hold.input) && NoDearer(EffectiveCached(band), hold.input)
      && NoDearer(EffectiveWrite(band), hold.input) && NoDearer(band.output, hold.output)
  {
    BandInTables(s, prompt);
    var band, worst := AtPromptTokens(s, prompt), WorstCase(s);
    if s.conditional != [] {
      if band.input.Some? { DearestIs(Tables(s), (r: Rates) => r.input, band); }
      if band.output.Some? { DearestIs(Tables(s), (r: Rates) => r.output, band); }
      if EffectiveCached(band).Some? { DearestIs(Tables(s), (r: Rates) => EffectiveCached(r), band); }
      if EffectiveWrite(band).Some? { DearestIs(Tables(s), (r: Rates) => EffectiveWrite(r), band); }
      assert NoDearer(band.input, worst.input) && NoDearer(EffectiveCached(band), worst.cachedInput);
      assert NoDearer(EffectiveWrite(band), worst.cacheWrite) && NoDearer(band.output, worst.output);
    }
  }

  lemma {:induction false} DearestOf(tables: seq<Rates>, pick: Rates -> Option<real>) returns (t: Rates)
    requires Dearest(tables, pick).Some?
    ensures t in tables && pick(t) == Dearest(tables, pick)
  {
    var front, last := tables[..|tables| - 1], tables[|tables| - 1];
    if Dearest(tables, pick) == pick(last) {
      t := last;
    } else {
      t := DearestOf(front, pick);
    }
  }

  /** A rate table of the schedule. */
  ghost predicate IsTable(s: Schedule, t: Rates) {
    t == s.base || exists b :: b in s.conditional && b.rates == t
  }

  /** A rate some prompt token may be billed at under this table. */
  ghost predicate QuotesPrompt(t: Rates, x: real) {
    t.input == Some(x) || t.cachedInput == Some(x) || t.cacheWrite == Some(x)
  }

  lemma TablesAre(s: Schedule, t: Rates)
    ensures t in Tables(s) <==> IsTable(s, t)
  {
    if t in Tables(s) {
      var i :| 0 <= i < |Tables(s)| && Tables(s)[i] == t;
      if i > 0 { assert s.conditional[i - 1] in s.conditional; }
    }
    assert Tables(s)[0] == s.base;
    if b :| b in s.conditional && b.rates == t {
      var i :| 0 <= i < |s.conditional| && s.conditional[i] == b;
      assert Tables(s)[i + 1] == t;
    }
  }

  /** And they are no more than that: a rate held at is one some table of the schedule quotes. */
  lemma HoldIsQuoted(s: Schedule)
    ensures var hold := ReservationRates(s);
      && (hold.input.Some? ==> exists t :: IsTable(s, t) && QuotesPrompt(t, hold.input.value))
      && (hold.output.Some? ==> exists t :: IsTable(s, t) && t.output == hold.output)
  {
    var hold, worst := ReservationRates(s), WorstCase(s);
    if s.conditional == [] {
      assert IsTable(s, s.base);
    } else {
      if worst.output.Some? {
        var t := DearestOf(Tables(s), (r: Rates) => r.output);
        TablesAre(s, t);
      }
      if hold.input.Some? { HoldInputQuoted(s, hold.input.value); }
    }
  }

  lemma HoldInputQuoted(s: Schedule, x: real)
    requires s.conditional != [] && ReservationRates(s).input == Some(x)
    ensures exists t :: IsTable(s, t) && QuotesPrompt(t, x)
  {
    var worst := WorstCase(s);
    var t: Rates;
    if worst.input == Some(x) {
      t := DearestOf(Tables(s), (r: Rates) => r.input);
    } else if worst.cachedInput == Some(x) {
      t := DearestOf(Tables(s), (r: Rates) => EffectiveCached(r));
    } else {
      t := DearestOf(Tables(s), (r: Rates) => EffectiveWrite(r));
    }
    TablesAre(s, t);
    assert QuotesPrompt(t, x);
  }

  lemma Scaled(n: nat, m: nat, a: real, b: real)
    requires n <= m && a <= b && 0.0 <= b
    ensures n as real * a <= m as real * b
  {
    assert n as real * a <= n as real * b;
    assert n as real * b <= m as real * b;
  }

  lemma Times(n: real, a: real, b: real)
    requires 0.0 <= n && a <= b
    ensures n * a <= n * b
  {
  }

  lemma SplitBelow(x: real, y: real, z: real, whole: real, a: real, b: real, c: real, dear: real)
    requires 0.0 <= x && 0.0 <= y && 0.0 <= z && x + y + z <= whole && a <= dear && b <= dear && c <= dear
    requires 0.0 <= dear
    ensures x * a + y * b + z * c <= whole * dear
  {
    Times(x, a, dear);
    Times(y, b, dear);
    Times(z, c, dear);
    Times(dear, x + y + z, whole);
    assert (x + y + z) * dear == x * dear + y * dear + z * dear;
  }

  /** Measured usage inside the bound costs no more, in the band its own prompt selects, than the bound at the
      reservation's rates. */
  lemma CostBelow(s: Schedule, bound: Usage, u: Usage)
    requires bound.cached == 0 && bound.written == 0 && u.prompt <= bound.prompt && u.completion <= bound.completion
    requires UsageCost(ReservationRates(s), bound).Some? && UsageCost(AtPromptTokens(s, u.prompt), u).Some?
    ensures UsageCost(AtPromptTokens(s, u.prompt), u).value <= UsageCost(ReservationRates(s), bound).value
  {
    BandsBelow(s, u.prompt);
    RatesBelow(AtPromptTokens(s, u.prompt), ReservationRates(s), bound, u);
  }

  lemma RatesBelow(band: Rates, hold: Rates, bound: Usage, u: Usage)
    requires bound.cached == 0 && bound.written == 0 && u.prompt <= bound.prompt && u.completion <= bound.completion
    requires NoDearer(band.input, hold.input) && NoDearer(EffectiveCached(band), hold.input)
    requires NoDearer(EffectiveWrite(band), hold.input) && NoDearer(band.output, hold.output)
    requires UsageCost(hold, bound).Some? && UsageCost(band, u).Some?
    ensures UsageCost(band, u).value <= UsageCost(hold, bound).value
  {
    PricedBelow(band, hold, bound, u);
  }

  lemma PricedBelow(band: Rates, hold: Rates, bound: Usage, u: Usage)
    requires bound.cached == 0 && bound.written == 0 && u.prompt <= bound.prompt && u.completion <= bound.completion
    requires OrZero(band.input) <= OrZero(hold.input) && OrZero(EffectiveCached(band)) <= OrZero(hold.input)
    requires OrZero(EffectiveWrite(band)) <= OrZero(hold.input) && 0.0 <= OrZero(hold.input)
    requires OrZero(band.output) <= OrZero(hold.output) && 0.0 <= OrZero(hold.output)
    ensures Priced(band, u) <= Priced(hold, bound)
  {
    PromptBelow(band, OrZero(hold.input), bound.prompt, u);
    Scaled(u.completion, bound.completion, OrZero(band.output), OrZero(hold.output));
    HoldIs(hold, bound);
  }

  lemma PromptBelow(band: Rates, dear: real, most: nat, u: Usage)
    requires u.prompt <= most && 0.0 <= dear
    requires OrZero(band.input) <= dear && OrZero(EffectiveCached(band)) <= dear && OrZero(EffectiveWrite(band)) <= dear
    ensures PromptPriced(band, u) <= most as real * dear
  {
    var cached := AtMost(u.cached, u.prompt);
    var written := AtMost(u.written, u.prompt - cached);
    SplitBelow((u.prompt - cached - written) as real, cached as real, written as real, most as real,
               OrZero(band.input), OrZero(EffectiveCached(band)), OrZero(EffectiveWrite(band)), dear);
  }

  /** A bound carries no cache detail, so all of its prompt is priced at the input rate. */
  lemma HoldIs(hold: Rates, bound: Usage)
    requires bound.cached == 0 && bound.written == 0
    ensures Priced(hold, bound) ==
        bound.prompt as real * OrZero(hold.input) + bound.completion as real * OrZero(hold.output)
  {
    assert 0 as real * OrZero(EffectiveCached(hold)) == 0.0 && 0 as real * OrZero(EffectiveWrite(hold)) == 0.0;
  }

  // ---------------------------------------------------------------- the guarantee

  /** The house rate is reserved exactly when some credential the route could open settles at it. */
  lemma RateIsTight(candidates: seq<Definition>, covered: map<string, bool>)
    requires candidates != []
    ensures ReservationRate(candidates, covered) == HOUSE_RATE <==>
      exists c: Rung :: c.definition in candidates && Opens(covered, c) && ServedRate(c) == HOUSE_RATE
    ensures ReservationRate(candidates, covered) ==
      if exists d :: d in candidates && (d.provider !in covered || covered[d.provider]) then 1.0 else 0.05
  {
    if forall d :: d in candidates ==> d.provider in covered && !covered[d.provider] {
      assert candidates[0] in candidates;
    }
    if ReservationRate(candidates, covered) == HOUSE_RATE {
      assert covered == map[] ==> candidates[0] in candidates && candidates[0].provider !in covered;
      var d :| d in candidates && !(d.provider in covered && !covered[d.provider]);
      var c := Rung(0, d, if d.provider in covered then Twin else House);
      assert c.definition in candidates && Opens(covered, c) && ServedRate(c) == HOUSE_RATE;
    }
  }

  /** Whichever rung serves, in whichever band, the charge is within the reservation: the clamp at settlement
      never takes anything off. */
  lemma ReservationCovers(s: Schedule, bound: Usage, u: Usage, candidates: seq<Definition>, covered: map<string, bool>,
                          c: Rung)
    requires bound.cached == 0 && bound.written == 0 && u.prompt <= bound.prompt && u.completion <= bound.completion
    requires c.definition in candidates && Opens(covered, c)
    requires UsageCost(ReservationRates(s), bound).Some? && UsageCost(AtPromptTokens(s, u.prompt), u).Some?
    ensures var reserved := ApplyFee(UsageCost(ReservationRates(s), bound).value, ReservationRate(candidates, covered));
      var charge := ApplyFee(UsageCost(AtPromptTokens(s, u.prompt), u).value, ServedRate(c));
      0.0 <= charge <= reserved
  {
    CostBelow(s, bound, u);
    CostNonNegative(AtPromptTokens(s, u.prompt), u);
    assert ServedRate(c) <= ReservationRate(candidates, covered);
  }

  /** The customer's own key pays a twentieth of what the house's pays. */
  lemma FeeLaw(cost: real, c: Rung)
    ensures ApplyFee(cost, ServedRate(c)) == if c.credential == Byok then cost / 20.0 else cost
  {
  }

  lemma CostNonNegative(r: Rates, u: Usage)
    requires UsageCost(r, u).Some?
    ensures 0.0 <= UsageCost(r, u).value
  {
    var cached := AtMost(u.cached, u.prompt);
    var written := AtMost(u.written, u.prompt - cached);
    Scaled(0, u.prompt - cached - written, 0.0, OrZero(r.input));
    Scaled(0, cached, 0.0, OrZero(EffectiveCached(r)));
    Scaled(0, written, 0.0, OrZero(EffectiveWrite(r)));
    Scaled(0, u.completion, 0.0, OrZero(r.output));
  }

  /** A hold at the fee rate would not cover a house rung: on any route with one, usage that fills its bound at a
      price settles above it. */
  lemma FeeHoldFallsShort(s: Schedule, bound: Usage, c: Rung)
    requires bound.cached == 0 && bound.written == 0 && s.conditional == [] && s.base == ReservationRates(s)
    requires UsageCost(s.base, bound).Some? && UsageCost(s.base, bound).value > 0.0 && c.credential != Byok
    ensures ApplyFee(UsageCost(AtPromptTokens(s, bound.prompt), bound).value, ServedRate(c)) >
            ApplyFee(UsageCost(ReservationRates(s), bound).value, FEE_RATE)
  {
    BestIs(s.conditional, bound.prompt);
  }

  /** What admission is told is exact. The route has a catalog basis exactly if it could open a customer's key, and
      is wholly BYOK exactly if it could open nothing else. */
  lemma PostureIsTight(candidates: seq<Definition>, covered: map<string, bool>, catalogCost: real)
    requires candidates != []
    ensures var posture := ReservationPosture(candidates, covered, catalogCost);
      && (posture.catalogBasis == if MayOpen(candidates, covered, Byok) then Some(catalogCost) else None)
      && (posture.whollyByok <==> !MayOpen(candidates, covered, House) && !MayOpen(candidates, covered, Twin))
  {
    RateIsTight(candidates, covered);
    forall d | d in candidates
      ensures Openable(candidates, covered,
                       Rung(0, d, if d.provider !in covered then House else if covered[d.provider] then Twin else Byok))
      ensures d.provider in covered ==> Openable(candidates, covered, Rung(0, d, Byok))
    {
    }
    assert candidates[0] in candidates;
    assert ReservationRate(candidates, covered) == HOUSE_RATE <==>
      MayOpen(candidates, covered, House) || MayOpen(candidates, covered, Twin);
  }

  ghost predicate Openable(candidates: seq<Definition>, covered: map<string, bool>, c: Rung) {
    c.definition in candidates && Opens(covered, c)
  }

  ghost predicate MayOpen(candidates: seq<Definition>, covered: map<string, bool>, credential: Credential) {
    exists c: Rung :: Openable(candidates, covered, c) && c.credential == credential
  }
}
