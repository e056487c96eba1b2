/** The order a route is walked in. `api.rs` builds it out of stable passes, one laid over another; together
    they are one lexicographic sort. */
module Ordering {
  import opened Sequences
  import opened Wrappers

  datatype Definition = Definition(id: string, provider: string)

  /** Whose credential a rung carries: the house's, the customer's own key, or the house's again as the
      opted-in fallback behind the customer's key. */
  datatype Credential = House | Byok | Twin

  /** A candidate and its place in the tier table. */
  datatype Rung = Rung(index: int, definition: Definition, credential: Credential)

  datatype Priority = Cost | Balanced | Success

  /** What the ordering reads. Costs are ranks in the total order of `f64::total_cmp`. */
  datatype Signals = Signals(
    priority: Priority,
    routed: bool,
    isFree: Definition -> bool,
    shouldSkip: Definition -> bool,
    canServe: Definition -> bool,
    retention: Definition -> int,
    cell: Definition -> Option<nat>,
    segment: Option<nat>,
    costBasis: (Definition, nat) -> int)
  {
    /** A rung prices at its own warm cell's median output, else at the segment's. */
    function Estimate(d: Definition): Option<int> {
      match cell(d)
      case Some(p50) => Some(costBasis(d, p50))
      case None => if segment.Some? then Some(costBasis(d, segment.value)) else None
    }
  }

  // ---------------------------------------------------------------- stable passes

  /** Keepers to the front, the rest to the back, each in the order they came. */
  function Sink(s: seq<Rung>, keep: Rung -> bool): seq<Rung> {
    Filter(s, keep) + Filter(s, Not(keep))
  }

  function AtMost(key: Rung -> int): (Rung, Rung) -> bool {
    (a: Rung, b: Rung) => key(a) <= key(b)
  }

  // ---------------------------------------------------------------- the passes of the source

  function Free(g: Signals): Rung -> bool {
    (r: Rung) => g.isFree(r.definition)
  }

  function Healthy(g: Signals): Rung -> bool {
    (r: Rung) => !g.shouldSkip(r.definition)
  }

  function Able(g: Signals): Rung -> bool {
    (r: Rung) => g.canServe(r.definition)
  }

  function Retention(g: Signals): Rung -> int {
    (r: Rung) => g.retention(r.definition)
  }

  function Price(g: Signals): Rung -> int {
    (r: Rung) => if g.Estimate(r.definition).Some? then g.Estimate(r.definition).value else 0
  }

  /** Some rung that costs something has no estimate from any grain. */
  predicate Cold(g: Signals, s: seq<Rung>) {
    exists r :: r in s && !g.isFree(r.definition) && g.Estimate(r.definition).None?
  }

  function ByExpectedCost(g: Signals, s: seq<Rung>): seq<Rung> {
    var priced := Filter(s, Not(Free(g)));
    Filter(s, Free(g)) + (if Cold(g, s) then priced else StableSort(priced, AtMost(Price(g))))
  }

  function OrderCandidates(g: Signals, s: seq<Rung>): seq<Rung> {
    var base := if g.priority == Cost then ByExpectedCost(g, s) else s;
    var healthy := Sink(base, Healthy(g));
    if g.priority == Cost then Sink(healthy, Able(g)) else healthy
  }

  function OrderRoute(g: Signals, s: seq<Rung>): seq<Rung> {
    var ordered := OrderCandidates(g, s);
    if g.routed then StableSort(ordered, AtMost(Retention(g))) else ordered
  }

  // ---------------------------------------------------------------- one lexicographic key

  predicate Lex(a: seq<int>, b: seq<int>) {
    a != [] && b != [] && (a[0] < b[0] || (a[0] == b[0] && Lex(a[1..], b[1..])))
  }

  ghost predicate Ordered(s: seq<Rung>, key: Rung -> seq<int>) {
    forall i, j :: 0 <= i < j < |s| ==> Lex(key(s[i]), key(s[j]))
  }

  function Index(): Rung -> seq<int> {
    (r: Rung) => [r.index]
  }

  function Then(first: Rung -> int, rest: Rung -> seq<int>): Rung -> seq<int> {
    (r: Rung) => [first(r)] + rest(r)
  }

  function Bit(p: Rung -> bool): Rung -> int {
    (r: Rung) => if p(r) then 0 else 1
  }

  /** The cost at the rung's own median output, if its cell is warm, or else at the segment's. */
  ghost function Quoted(g: Signals, d: Definition): int {
    if g.cell(d).Some? then g.costBasis(d, g.cell(d).value)
    else if g.segment.Some? then g.costBasis(d, g.segment.value)
    else 0
  }

  /** Some rung that costs something is quoted at no grain. */
  ghost predicate Unquoted(g: Signals, s: seq<Rung>) {
    exists r :: r in s && !g.isFree(r.definition) && g.cell(r.definition).None? && g.segment.None?
  }

  lemma EstimateIs(g: Signals, s: seq<Rung>)
    ensures Cold(g, s) <==> Unquoted(g, s)
    ensures forall d ::
      g.Estimate(d) == (if g.cell(d).None? && g.segment.None? then None else Some(Quoted(g, d)))
  {
    if r :| r in s && !g.isFree(r.definition) && g.cell(r.definition).None? && g.segment.None? {
      assert g.Estimate(r.definition).None?;
    }
  }

  /** What a rung is sorted by: retention if routed, ability in cost mode, health, freeness and price in cost
      mode, table position. A part that does not apply is the same for every rung. */
  ghost function FullKey(g: Signals, cold: bool, r: Rung): seq<int> {
    var d := r.definition;
    var cost := g.priority == Cost;
    [if g.routed then g.retention(d) else 0,
     if cost && !g.canServe(d) then 1 else 0,
     if g.shouldSkip(d) then 1 else 0,
     if cost && !g.isFree(d) then 1 else 0,
     if cost && !cold && !g.isFree(d) then Quoted(g, d) else 0,
     r.index]
  }

  ghost function Key(g: Signals, cold: bool): Rung -> seq<int> {
    (r: Rung) => FullKey(g, cold, r)
  }

  // ---------------------------------------------------------------- what each pass does to the key

  lemma {:induction false} FilterKeeps(s: seq<Rung>, keep: Rung -> bool, key: Rung -> seq<int>)
    requires Ordered(s, key)
    ensures Ordered(Filter(s, keep), key)
  {
    if s == [] {
    } else {
      FilterKeeps(s[1..], keep, key);
      var rest := Filter(s[1..], keep);
      forall x | x in rest ensures Lex(key(s[0]), key(x)) {
        var j :| 0 <= j < |s[1..]| && s[1..][j] == x;
        assert s[j + 1] == x;
      }
    }
  }

  /** Two ordered runs, the first all below the second, are ordered together. */
  lemma Joined(a: seq<Rung>, b: seq<Rung>, key: Rung -> seq<int>)
    requires Ordered(a, key) && Ordered(b, key)
    requires forall x, y :: x in a && y in b ==> Lex(key(x), key(y))
    ensures Ordered(a + b, key)
  {
  }

  /** Where the first component is the same throughout, the rest decides. */
  lemma Levelled(s: seq<Rung>, first: Rung -> int, key: Rung -> seq<int>, n: int)
    requires Ordered(s, key) && forall x :: x in s ==> first(x) == n
    ensures Ordered(s, Then(first, key))
  {
    forall i, j | 0 <= i < j < |s| ensures Lex(Then(first, key)(s[i]), Then(first, key)(s[j])) {
      Prepended(first(s[i]), key(s[i]), key(s[j]));
      assert s[i] in s && s[j] in s;
    }
  }

  lemma Prepended(n: int, a: seq<int>, b: seq<int>)
    ensures Lex([n] + a, [n] + b) <==> Lex(a, b)
  {
    assert ([n] + a)[1..] == a && ([n] + b)[1..] == b;
  }

  /** A stable partition puts its test in front of whatever the order was. */
  lemma SinkSorts(s: seq<Rung>, keep: Rung -> bool, key: Rung -> seq<int>)
    requires Ordered(s, key)
    ensures Ordered(Sink(s, keep), Then(Bit(keep), key))
    ensures multiset(Sink(s, keep)) == multiset(s)
  {
    FilterKeeps(s, keep, key);
    FilterKeeps(s, Not(keep), key);
    FilterCounts(s, keep);
    Levelled(Filter(s, keep), Bit(keep), key, 0);
    Levelled(Filter(s, Not(keep)), Bit(keep), key, 1);
    Joined(Filter(s, keep), Filter(s, Not(keep)), Then(Bit(keep), key));
  }

  lemma HeadBelow(s: seq<Rung>, key: Rung -> seq<int>, y: Rung)
    requires Ordered(s, key) && s != [] && y in s[1..]
    ensures Lex(key(s[0]), key(y))
  {
    var j :| 0 <= j < |s[1..]| && s[1..][j] == y;
    assert s[j + 1] == y;
  }

  lemma {:induction false} InsertSorts(x: Rung, s: seq<Rung>, first: Rung -> int, key: Rung -> seq<int>)
    requires Ordered(s, Then(first, key)) && forall y :: y in s ==> Lex(key(x), key(y))
    ensures Ordered(Insert(x, s, AtMost(first)), Then(first, key))
  {
    var full := Then(first, key);
    if s == [] {
    } else if first(x) <= first(s[0]) {
      forall y | y in s ensures Lex(full(x), full(y)) {
        Prepended(first(x), key(x), key(y));
        if y in s[1..] { HeadBelow(s, full, y); }
        assert s == [s[0]] + s[1..];
      }
      Joined([x], s, full);
    } else {
      InsertSorts(x, s[1..], first, key);
      InsertCounts(x, s[1..], AtMost(first));
      forall y | y in Insert(x, s[1..], AtMost(first)) ensures Lex(full(s[0]), full(y)) {
        if y != x { HeadBelow(s, full, y); }
      }
      Joined([s[0]], Insert(x, s[1..], AtMost(first)), full);
    }
  }

  /** So does a stable sort, with its key. */
  lemma {:induction false} SortSorts(s: seq<Rung>, first: Rung -> int, key: Rung -> seq<int>)
    requires Ordered(s, key)
    ensures Ordered(StableSort(s, AtMost(first)), Then(first, key))
    ensures multiset(StableSort(s, AtMost(first))) == multiset(s)
  {
    if s == [] {
    } else {
      SortSorts(s[1..], first, key);
      forall y | y in StableSort(s[1..], AtMost(first)) ensures Lex(key(s[0]), key(y)) {
        assert y in multiset(s[1..]);
        var j :| 0 <= j < |s[1..]| && s[1..][j] == y;
        assert s[j + 1] == y;
      }
      InsertSorts(s[0], StableSort(s[1..], AtMost(first)), first, key);
      InsertCounts(s[0], StableSort(s[1..], AtMost(first)), AtMost(first));
      assert s == [s[0]] + s[1..];
    }
  }

  /** The price part of the key: nothing for a free rung, and nothing for anyone when the route is cold. */
  function CostPart(g: Signals, cold: bool): Rung -> int {
    (r: Rung) => if cold || g.isFree(r.definition) then 0 else Price(g)(r)
  }

  /** What costs something, by price if the route is warm and as it was if not. */
  lemma PricedSorts(g: Signals, priced: seq<Rung>, cold: bool, key: Rung -> seq<int>) returns (sorted: seq<Rung>)
    requires Ordered(priced, key) && forall x :: x in priced ==> !g.isFree(x.definition)
    ensures sorted == if cold then priced else StableSort(priced, AtMost(Price(g)))
    ensures Ordered(sorted, Then(CostPart(g, cold), key)) && multiset(sorted) == multiset(priced)
    ensures forall x :: x in sorted ==> !g.isFree(x.definition)
  {
    sorted := priced;
    if cold {
      Levelled(priced, CostPart(g, cold), key, 0);
    } else {
      SortSorts(priced, Price(g), key);
      sorted := StableSort(priced, AtMost(Price(g)));
      forall x | x in sorted ensures x in priced { assert x in multiset(sorted); }
      Rekeyed(sorted, Then(Price(g), key), Then(CostPart(g, cold), key));
    }
  }

  lemma FreeFirst(g: Signals, free: seq<Rung>, priced: seq<Rung>, key: Rung -> seq<int>)
    requires Ordered(free, key) && Ordered(priced, key)
    requires (forall x :: x in free ==> g.isFree(x.definition)) && forall x :: x in priced ==> !g.isFree(x.definition)
    ensures Ordered(free + priced, Then(Bit(Free(g)), key))
  {
    Levelled(free, Bit(Free(g)), key, 0);
    Levelled(priced, Bit(Free(g)), key, 1);
    Joined(free, priced, Then(Bit(Free(g)), key));
  }

  lemma CostSorts(g: Signals, s: seq<Rung>, key: Rung -> seq<int>)
    requires Ordered(s, key)
    ensures Ordered(ByExpectedCost(g, s), Then(Bit(Free(g)), Then(CostPart(g, Cold(g, s)), key)))
    ensures multiset(ByExpectedCost(g, s)) == multiset(s)
  {
    var free, priced := Filter(s, Free(g)), Filter(s, Not(Free(g)));
    FilterKeeps(s, Free(g), key);
    FilterKeeps(s, Not(Free(g)), key);
    FilterCounts(s, Free(g));
    Levelled(free, CostPart(g, Cold(g, s)), key, 0);
    var sorted := PricedSorts(g, priced, Cold(g, s), key);
    FreeFirst(g, free, sorted, Then(CostPart(g, Cold(g, s)), key));
  }

  lemma Rekeyed(s: seq<Rung>, key: Rung -> seq<int>, key': Rung -> seq<int>)
    requires Ordered(s, key) && forall x :: x in s ==> key'(x) == key(x)
    ensures Ordered(s, key')
  {
    forall i, j | 0 <= i < j < |s| ensures Lex(key'(s[i]), key'(s[j])) {
      assert s[i] in s && s[j] in s;
    }
  }

  function Flat(): Rung -> int {
    (r: Rung) => 0
  }

  /** Freeness and price in cost mode, nothing otherwise. */
  lemma BaseSorts(g: Signals, s: seq<Rung>) returns (free: Rung -> int, price: Rung -> int)
    requires Ordered(s, Index())
    ensures var base := if g.priority == Cost then ByExpectedCost(g, s) else s;
      Ordered(base, Then(free, Then(price, Index()))) && multiset(base) == multiset(s)
    ensures forall r :: r in s ==> free(r) == FullKey(g, Cold(g, s), r)[3] && price(r) == FullKey(g, Cold(g, s), r)[4]
  {
    if g.priority == Cost {
      free, price := Bit(Free(g)), CostPart(g, Cold(g, s));
      CostSorts(g, s, Index());
    } else {
      free, price := Flat(), Flat();
      Levelled(s, Flat(), Index(), 0);
      Levelled(s, Flat(), Then(Flat(), Index()), 0);
    }
  }

  lemma AbilitySorts(g: Signals, s: seq<Rung>, key: Rung -> seq<int>) returns (ability: Rung -> int)
    requires Ordered(s, key)
    ensures var r := if g.priority == Cost then Sink(s, Able(g)) else s;
      Ordered(r, Then(ability, key)) && multiset(r) == multiset(s)
    ensures forall r :: ability(r) == if g.priority == Cost && !g.canServe(r.definition) then 1 else 0
  {
    if g.priority == Cost {
      ability := Bit(Able(g));
      SinkSorts(s, Able(g), key);
    } else {
      ability := Flat();
      Levelled(s, Flat(), key, 0);
    }
  }

  lemma RetentionSorts(g: Signals, s: seq<Rung>, key: Rung -> seq<int>) returns (rank: Rung -> int)
    requires Ordered(s, key)
    ensures var r := if g.routed then StableSort(s, AtMost(Retention(g))) else s;
      Ordered(r, Then(rank, key)) && multiset(r) == multiset(s)
    ensures forall r :: rank(r) == if g.routed then g.retention(r.definition) else 0
  {
    if g.routed {
      rank := Retention(g);
      SortSorts(s, Retention(g), key);
    } else {
      rank := Flat();
      Levelled(s, Flat(), key, 0);
    }
  }

  /** The composed passes leave the route sorted by the one key, with nothing lost and nothing added. */
  lemma OrderSorts(g: Signals, s: seq<Rung>)
    requires Ordered(s, Index())
    ensures Ordered(OrderRoute(g, s), Key(g, Cold(g, s)))
    ensures multiset(OrderRoute(g, s)) == multiset(s)
  {
    var free, price := BaseSorts(g, s);
    var base := if g.priority == Cost then ByExpectedCost(g, s) else s;
    var k3 := Then(free, Then(price, Index()));
    SinkSorts(base, Healthy(g), k3);
    var k2 := Then(Bit(Healthy(g)), k3);
    var ability := AbilitySorts(g, Sink(base, Healthy(g)), k2);
    var rank := RetentionSorts(g, OrderCandidates(g, s), Then(ability, k2));
    Combined(g, s, OrderRoute(g, s), rank, ability, free, price);
  }

  lemma Combined(g: Signals, s: seq<Rung>, route: seq<Rung>,
                 rank: Rung -> int, ability: Rung -> int, free: Rung -> int, price: Rung -> int)
    requires multiset(route) == multiset(s)
    requires Ordered(route, Then(rank, Then(ability, Then(Bit(Healthy(g)), Then(free, Then(price, Index()))))))
    requires forall r :: rank(r) == if g.routed then g.retention(r.definition) else 0
    requires forall r :: ability(r) == if g.priority == Cost && !g.canServe(r.definition) then 1 else 0
    requires forall r :: r in s ==> free(r) == FullKey(g, Cold(g, s), r)[3] && price(r) == FullKey(g, Cold(g, s), r)[4]
    ensures Ordered(route, Key(g, Cold(g, s)))
  {
    var key := Then(rank, Then(ability, Then(Bit(Healthy(g)), Then(free, Then(price, Index())))));
    forall r | r in route ensures key(r) == FullKey(g, Cold(g, s), r) {
      assert r in multiset(route);
    }
    Rekeyed(route, key, Key(g, Cold(g, s)));
  }

  // ---------------------------------------------------------------- and that fixes it

  lemma {:induction false} LexAsymmetric(a: seq<int>, b: seq<int>)
    requires Lex(a, b)
    ensures !Lex(b, a)
  {
    if a[0] == b[0] { LexAsymmetric(a[1..], b[1..]); }
  }

  lemma HeadIsLeast(a: seq<Rung>, b: seq<Rung>, key: Rung -> seq<int>)
    requires Ordered(a, key) && Ordered(b, key) && multiset(a) == multiset(b) && a != [] && b != []
    ensures a[0] == b[0]
  {
    assert a[0] in multiset(b) && b[0] in multiset(a);
    var i :| 0 <= i < |b| && b[i] == a[0];
    var j :| 0 <= j < |a| && a[j] == b[0];
    if i > 0 && j > 0 {
      LexAsymmetric(key(a[0]), key(b[0]));
    }
  }

  /** A strict order has one arrangement: the sorted route is the only one. */
  lemma {:induction false} OrderIsUnique(a: seq<Rung>, b: seq<Rung>, key: Rung -> seq<int>)
    requires Ordered(a, key) && Ordered(b, key) && multiset(a) == multiset(b)
    ensures a == b
  {
    if a == [] {
      assert |multiset(b)| == 0;
    } else {
      assert a == [a[0]] + a[1..];
      assert b != [] by { assert a[0] in multiset(b); }
      assert b == [b[0]] + b[1..];
      HeadIsLeast(a, b, key);
      assert multiset(a[1..]) == multiset(a) - multiset{a[0]} == multiset(b[1..]);
      OrderIsUnique(a[1..], b[1..], key);
    }
  }

  /** The ordered route is exactly the lexicographic sort of the table. */
  lemma OrderIsTheSort(g: Signals, s: seq<Rung>, r: seq<Rung>)
    requires Ordered(s, Index())
    ensures r == OrderRoute(g, s) <==> multiset(r) == multiset(s) && Ordered(r, Key(g, Unquoted(g, s)))
  {
    OrderSorts(g, s);
    EstimateIs(g, s);
    if multiset(r) == multiset(s) && Ordered(r, Key(g, Cold(g, s))) {
      OrderIsUnique(r, OrderRoute(g, s), Key(g, Cold(g, s)));
    }
  }

  /** On a routed request no rung of a weaker retention posture precedes a stronger one. */
  lemma RetentionFirst(g: Signals, s: seq<Rung>, i: nat, j: nat)
    requires Ordered(s, Index()) && g.routed && i < j < |OrderRoute(g, s)|
    ensures g.retention(OrderRoute(g, s)[i].definition) <= g.retention(OrderRoute(g, s)[j].definition)
  {
    OrderSorts(g, s);
    var r := OrderRoute(g, s);
    assert Lex(Key(g, Cold(g, s))(r[i]), Key(g, Cold(g, s))(r[j]));
  }

  /** A fallback twin stands behind the BYOK rung of its own definition, wherever the passes put the two. */
  lemma TwinStaysBehind(g: Signals, s: seq<Rung>, i: nat, j: nat)
    requires Ordered(s, Index()) && i < |OrderRoute(g, s)| && j < |OrderRoute(g, s)|
    requires OrderRoute(g, s)[i].definition == OrderRoute(g, s)[j].definition
    requires OrderRoute(g, s)[i].index < OrderRoute(g, s)[j].index
    ensures i < j
  {
    OrderSorts(g, s);
    TwinBehind(g, Cold(g, s), OrderRoute(g, s), i, j);
  }

  lemma TwinBehind(g: Signals, cold: bool, r: seq<Rung>, i: nat, j: nat)
    requires Ordered(r, Key(g, cold)) && i < |r| && j < |r|
    requires r[i].definition == r[j].definition && r[i].index < r[j].index
    ensures i < j
  {
    if j < i {
      assert Lex(Key(g, cold)(r[j]), Key(g, cold)(r[i]));
      SameButIndex(FullKey(g, cold, r[j]), FullKey(g, cold, r[i]));
    }
  }

  lemma SameButIndex(a: seq<int>, b: seq<int>)
    requires |a| == |b| == 6 && a[..5] == b[..5]
    ensures Lex(a, b) <==> a[5] < b[5]
  {
    assert a == [a[0], a[1], a[2], a[3], a[4], a[5]] && b == [a[0], a[1], a[2], a[3], a[4], b[5]];
    Prepended(a[4], [a[5]], [b[5]]);
    Prepended(a[3], [a[4], a[5]], [a[4], b[5]]);
    Prepended(a[2], [a[3], a[4], a[5]], [a[3], a[4], b[5]]);
    Prepended(a[1], [a[2], a[3], a[4], a[5]], [a[2], a[3], a[4], b[5]]);
    Prepended(a[0], [a[1], a[2], a[3], a[4], a[5]], [a[1], a[2], a[3], a[4], b[5]]);
    assert a == [a[0]] + [a[1], a[2], a[3], a[4], a[5]] && b == [a[0]] + [a[1], a[2], a[3], a[4], b[5]];
  }

  // ---------------------------------------------------------------- in place

  /** The route's candidate vector, drained and refilled by each pass. */
  class Route {
    var candidates: seq<Rung>

    constructor (table: seq<Rung>)
      ensures candidates == table
    {
      candidates := table;
    }

    method Partition(keep: Rung -> bool) returns (kept: seq<Rung>, sunk: seq<Rung>)
      modifies this
      ensures candidates == [] && kept == Filter(old(candidates), keep) && sunk == Filter(old(candidates), Not(keep))
    {
      var drained := candidates;
      candidates := [];
      kept, sunk := [], [];
      var i := 0;
      while i < |drained|
        invariant 0 <= i <= |drained| && candidates == []
        invariant kept == Filter(drained[..i], keep) && sunk == Filter(drained[..i], Not(keep))
      {
        var next := drained[i];
        assert drained[..i + 1] == drained[..i] + [next];
        FilterSnoc(drained[..i], next, keep);
        FilterSnoc(drained[..i], next, Not(keep));
        if keep(next) { kept := kept + [next]; } else { sunk := sunk + [next]; }
        i := i + 1;
      }
      assert drained[..i] == drained;
    }

    method OrderByExpectedCost(g: Signals)
      modifies this
      ensures candidates == ByExpectedCost(g, old(candidates))
    {
      ghost var table := candidates;
      var free, priced := Partition(Free(g));
      var warm := true;
      var i := 0;
      while i < |priced|
        invariant 0 <= i <= |priced|
        invariant warm <==> forall k :: 0 <= k < i ==> g.Estimate(priced[k].definition).Some?
      {
        warm := warm && g.Estimate(priced[i].definition).Some?;
        i := i + 1;
      }
      PricedHasAll(g, table);
      if warm {
        priced := StableSort(priced, AtMost(Price(g)));
      }
      candidates := free + priced;
    }

    method Order(g: Signals)
      modifies this
      ensures candidates == OrderCandidates(g, old(candidates))
    {
      if g.priority == Cost {
        OrderByExpectedCost(g);
      }
      var healthy, demoted := Partition(Healthy(g));
      candidates := healthy + demoted;
      if g.priority == Cost {
        var able, unable := Partition(Able(g));
        candidates := able + unable;
      }
    }

    method PartitionByRetention(g: Signals)
      modifies this
      ensures candidates == StableSort(old(candidates), AtMost(Retention(g)))
    {
      candidates := StableSort(candidates, AtMost(Retention(g)));
    }

    /** Both passes, as the handler runs them: the result is the sort of the table, and the only one. */
    method Prepare(g: Signals)
      requires Ordered(candidates, Index())
      modifies this
      ensures candidates == OrderRoute(g, old(candidates))
      ensures multiset(candidates) == multiset(old(candidates))
      ensures Ordered(candidates, Key(g, Unquoted(g, old(candidates))))
    {
      OrderSorts(g, candidates);
      EstimateIs(g, candidates);
      Order(g);
      if g.routed {
        PartitionByRetention(g);
      }
    }
  }

  lemma PricedHasAll(g: Signals, s: seq<Rung>)
    ensures var priced := Filter(s, Not(Free(g)));
      Cold(g, s) <==> exists k :: 0 <= k < |priced| && g.Estimate(priced[k].definition).None?
  {
    var priced := Filter(s, Not(Free(g)));
    if Cold(g, s) {
      var r :| r in s && !g.isFree(r.definition) && g.Estimate(r.definition).None?;
      FilterHas(s, Not(Free(g)), r);
      var k :| 0 <= k < |priced| && priced[k] == r;
      assert g.Estimate(priced[k].definition).None?;
    }
    if k :| 0 <= k < |priced| && g.Estimate(priced[k].definition).None? {
      FilterHas(s, Not(Free(g)), priced[k]);
      assert Not(Free(g))(priced[k]);
      assert priced[k] in s && !g.isFree(priced[k].definition);
      assert Cold(g, s);
    }
  }
}
