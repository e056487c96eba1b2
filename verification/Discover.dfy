/** The catalog diff: which models a source lists, under a provider this deployment can dial, that the catalog does
    not carry there. Complete, and one finding a model. */
module Discover {
  import opened Names
  import opened Sequences
  import opened Wrappers

  /** Versions compare like vectors: the first difference decides, and a prefix is smaller. */
  predicate Below(a: Version, b: Version) {
    b != [] && (a == [] || a[0] < b[0] || (a[0] == b[0] && Below(a[1..], b[1..])))
  }

  /** Versions that agree up to some place, where the first ends or has the smaller number. */
  ghost predicate Falls(a: Version, b: Version, i: nat) {
    i <= |a| && i < |b| && a[..i] == b[..i] && (i == |a| || a[i] < b[i])
  }

  lemma {:induction false} BelowLaw(a: Version, b: Version)
    ensures Below(a, b) <==> exists i: nat :: Falls(a, b, i)
  {
    if a != [] && b != [] {
      BelowLaw(a[1..], b[1..]);
      if a[0] < b[0] {
        assert Falls(a, b, 0);
      } else if a[0] == b[0] && Below(a, b) {
        var i: nat :| Falls(a[1..], b[1..], i);
        FallsCons(a, b, i);
      }
      if i: nat :| Falls(a, b, i) {
        if i > 0 {
          assert a[0] == a[..i][0] == b[..i][0] == b[0];
          FallsCons(a, b, i - 1);
        }
      }
    } else if b != [] {
      assert Falls(a, b, 0);
    }
  }

  lemma FallsCons(a: Version, b: Version, i: nat)
    requires a != [] && b != [] && a[0] == b[0]
    ensures Falls(a[1..], b[1..], i) <==> Falls(a, b, i + 1)
  {
    if i + 1 <= |a| && i + 1 < |b| {
      assert a[..i + 1] == [a[0]] + a[1..][..i] && b[..i + 1] == [b[0]] + b[1..][..i];
      assert a[1..][..i] == a[..i + 1][1..] && b[1..][..i] == b[..i + 1][1..];
    }
  }

  /** How names are read: the comparable bare name of a spelling, and the family and version of a bare name. The
      diff holds for any reading; the router's own is `CatalogReading`. */
  datatype Reading = Reading(canonical: string -> string, split: string -> Option<(Family, Version)>)

  function CatalogReading(): Reading {
    Reading(Canonical, SplitVersion)
  }

  /** One catalog lane, of a live or a withheld tier. */
  datatype Lane = Lane(provider: string, model: string)

  /** One model the source lists. `chat` is false for what is obviously no chat model. */
  datatype Listed = Listed(model: string, chat: bool, release: Option<int>)

  datatype Category = CrossCloud | VersionBump | New

  datatype Finding = Finding(category: Category, provider: string, model: string)

  datatype Scored = Scored(finding: Finding, release: Option<int>)

  // ---------------------------------------------------------------- what the catalog carries

  datatype Carried = Carried(here: set<(string, string)>, anywhere: map<string, set<string>>,
                             highest: map<(string, Family), Version>)

  predicate OnProvider(r: Reading, lanes: seq<Lane>, provider: string, name: string) {
    exists i :: 0 <= i < |lanes| && lanes[i].provider == provider && r.canonical(lanes[i].model) == name
  }

  predicate Elsewhere(r: Reading, lanes: seq<Lane>, provider: string, name: string) {
    exists i :: 0 <= i < |lanes| && lanes[i].provider != provider && r.canonical(lanes[i].model) == name
  }

  /** The lane is of this family on this provider, at this version. */
  predicate InFamily(r: Reading, lane: Lane, provider: string, family: Family, v: Version) {
    lane.provider == provider && r.split(r.canonical(lane.model)) == Some((family, v))
  }

  ghost predicate FamilyCarried(r: Reading, lanes: seq<Lane>, provider: string, family: Family) {
    exists i, v :: 0 <= i < |lanes| && InFamily(r, lanes[i], provider, family, v)
  }

  ghost predicate AboveAll(r: Reading, lanes: seq<Lane>, provider: string, family: Family, v: Version) {
    forall i, w :: 0 <= i < |lanes| && InFamily(r, lanes[i], provider, family, w) ==> Below(w, v)
  }

  /** The strongest category that applies to an uncarried model, said over the lanes themselves. */
  ghost function Strongest(r: Reading, lanes: seq<Lane>, provider: string, name: string): Category {
    if Elsewhere(r, lanes, provider, name) then CrossCloud
    else if r.split(name).Some? && FamilyCarried(r, lanes, provider, r.split(name).value.0)
         && AboveAll(r, lanes, provider, r.split(name).value.0, r.split(name).value.1)
    then VersionBump
    else New
  }

  ghost predicate Indexes(r: Reading, lanes: seq<Lane>, c: Carried) {
    && (forall p, n :: (p, n) in c.here <==> OnProvider(r, lanes, p, n))
    && (forall n, p :: (n in c.anywhere && p in c.anywhere[n]) <==> OnProvider(r, lanes, p, n))
    && (forall p, f :: (p, f) in c.highest <==> FamilyCarried(r, lanes, p, f))
    && (forall p, f :: (p, f) in c.highest ==> HighestIs(r, lanes, p, f, c.highest[(p, f)]))
  }

  /** Some lane of the family is at this version, and none is above it. */
  ghost predicate HighestIs(r: Reading, lanes: seq<Lane>, p: string, f: Family, v: Version) {
    && (exists i :: 0 <= i < |lanes| && InFamily(r, lanes[i], p, f, v))
    && (forall i, w :: 0 <= i < |lanes| && InFamily(r, lanes[i], p, f, w) ==> !Below(v, w))
  }

  lemma {:induction false} BelowTotal(a: Version, b: Version)
    ensures Below(a, b) || Below(b, a) || a == b
    ensures !(Below(a, b) && Below(b, a)) && !Below(a, a)
  {
    if a != [] && b != [] {
      BelowTotal(a[1..], b[1..]);
      assert a == [a[0]] + a[1..] && b == [b[0]] + b[1..];
    }
    if a != [] { BelowTotal(a[1..], a[1..]); }
  }

  lemma {:induction false} BelowTrans(a: Version, b: Version, c: Version)
    requires !Below(b, a) && Below(b, c)
    ensures Below(a, c)
  {
    BelowTotal(a, b);
    if a != b && a != [] {
      if a[0] == b[0] && b[0] == c[0] {
        BelowTrans(a[1..], b[1..], c[1..]);
      }
    }
  }

  lemma Snoc(r: Reading, lanes: seq<Lane>, lane: Lane, p: string, n: string)
    ensures OnProvider(r, lanes + [lane], p, n) <==>
        OnProvider(r, lanes, p, n) || (lane.provider == p && r.canonical(lane.model) == n)
  {
    var all := lanes + [lane];
    assert all[|lanes|] == lane;
    if OnProvider(r, lanes, p, n) {
      var i :| 0 <= i < |lanes| && lanes[i].provider == p && r.canonical(lanes[i].model) == n;
      assert all[i] == lanes[i];
    }
  }

  lemma SnocFamily(r: Reading, lanes: seq<Lane>, lane: Lane, p: string, f: Family)
    ensures FamilyCarried(r, lanes + [lane], p, f) <==>
        FamilyCarried(r, lanes, p, f) || exists v :: InFamily(r, lane, p, f, v)
  {
    var all := lanes + [lane];
    assert all[|lanes|] == lane;
    if FamilyCarried(r, lanes, p, f) {
      var i, v :| 0 <= i < |lanes| && InFamily(r, lanes[i], p, f, v);
      assert all[i] == lanes[i];
    }
  }

  /** What one more lane does to its family's highest version. */
  lemma SnocHighest(r: Reading, lanes: seq<Lane>, lane: Lane, p: string, f: Family, before: Option<Version>, v: Version)
    requires InFamily(r, lane, p, f, v)
    requires if before.Some? then HighestIs(r, lanes, p, f, before.value) else !FamilyCarried(r, lanes, p, f)
    ensures HighestIs(r, lanes + [lane], p, f, if before.Some? && !Below(before.value, v) then before.value else v)
  {
    var all := lanes + [lane];
    assert all[|lanes|] == lane;
    BelowTotal(v, v);
    if before.Some? {
      var i :| 0 <= i < |lanes| && InFamily(r, lanes[i], p, f, before.value);
      assert all[i] == lanes[i];
      forall j, w | 0 <= j < |all| && InFamily(r, all[j], p, f, w)
        ensures !Below(if !Below(before.value, v) then before.value else v, w)
      {
        if j < |lanes| && Below(before.value, v) && Below(v, w) {
          BelowTotal(before.value, v);
          BelowTrans(before.value, v, w);
        }
      }
    }
  }

  lemma SnocOther(r: Reading, lanes: seq<Lane>, lane: Lane, p: string, f: Family, v: Version)
    requires HighestIs(r, lanes, p, f, v) && forall w :: !InFamily(r, lane, p, f, w)
    ensures HighestIs(r, lanes + [lane], p, f, v)
  {
    var all := lanes + [lane];
    var i :| 0 <= i < |lanes| && InFamily(r, lanes[i], p, f, v);
    assert all[i] == lanes[i];
  }

  /** One more lane indexed. */
  function Indexed(r: Reading, c: Carried, lane: Lane): Carried {
    var name := r.canonical(lane.model);
    var split := r.split(name);
    var key := if split.Some? then (lane.provider, split.value.0) else (lane.provider, Family([], []));
    Carried(c.here + {(lane.provider, name)},
            c.anywhere[name := (if name in c.anywhere then c.anywhere[name] else {}) + {lane.provider}],
            if split.None? then c.highest
            else if key in c.highest && !Below(c.highest[key], split.value.1) then c.highest
            else c.highest[key := split.value.1])
  }

  lemma IndexedKeeps(r: Reading, lanes: seq<Lane>, c: Carried, lane: Lane)
    requires Indexes(r, lanes, c)
    ensures Indexes(r, lanes + [lane], Indexed(r, c, lane))
  {
    var c' := Indexed(r, c, lane);
    var name := r.canonical(lane.model);
    forall p, n ensures ((p, n) in c'.here <==> OnProvider(r, lanes + [lane], p, n))
                     && ((n in c'.anywhere && p in c'.anywhere[n]) <==> OnProvider(r, lanes + [lane], p, n)) {
      Snoc(r, lanes, lane, p, n);
    }
    forall p, f ensures ((p, f) in c'.highest <==> FamilyCarried(r, lanes + [lane], p, f)) {
      SnocFamily(r, lanes, lane, p, f);
      if r.split(name).Some? { assert InFamily(r, lane, lane.provider, r.split(name).value.0, r.split(name).value.1); }
    }
    forall p, f | (p, f) in c'.highest ensures HighestIs(r, lanes + [lane], p, f, c'.highest[(p, f)]) {
      IndexedHighest(r, lanes, c, lane, p, f);
    }
  }

  lemma IndexedHighest(r: Reading, lanes: seq<Lane>, c: Carried, lane: Lane, p: string, f: Family)
    requires Indexes(r, lanes, c) && (p, f) in Indexed(r, c, lane).highest
    ensures HighestIs(r, lanes + [lane], p, f, Indexed(r, c, lane).highest[(p, f)])
  {
    var split := r.split(r.canonical(lane.model));
    if split.Some? && p == lane.provider && f == split.value.0 {
      var before := if (p, f) in c.highest then Some(c.highest[(p, f)]) else None;
      SnocHighest(r, lanes, lane, p, f, before, split.value.1);
    } else {
      SnocOther(r, lanes, lane, p, f, c.highest[(p, f)]);
    }
  }

  method FromCatalog(r: Reading, lanes: seq<Lane>) returns (c: Carried)
    ensures Indexes(r, lanes, c)
  {
    var here: set<(string, string)> := {};
    var anywhere: map<string, set<string>> := map[];
    var highest: map<(string, Family), Version> := map[];
    var i := 0;
    while i < |lanes|
      invariant 0 <= i <= |lanes| && Indexes(r, lanes[..i], Carried(here, anywhere, highest))
    {
      ghost var before := Carried(here, anywhere, highest);
      var lane := lanes[i];
      var name := r.canonical(lane.model);
      here := here + {(lane.provider, name)};
      anywhere := anywhere[name := (if name in anywhere then anywhere[name] else {}) + {lane.provider}];
      var split := r.split(name);
      if split.Some? {
        var key := (lane.provider, split.value.0);
        if key !in highest || Below(highest[key], split.value.1) {
          highest := highest[key := split.value.1];
        }
      }
      assert Carried(here, anywhere, highest) == Indexed(r, before, lane);
      IndexedKeeps(r, lanes[..i], before, lane);
      assert lanes[..i + 1] == lanes[..i] + [lane];
      i := i + 1;
    }
    assert lanes[..i] == lanes;
    c := Carried(here, anywhere, highest);
  }

  // ---------------------------------------------------------------- one finding

  function CategoryOf(r: Reading, c: Carried, provider: string, name: string): Category {
    if name in c.anywhere && c.anywhere[name] - {provider} != {} then CrossCloud
    else
      var split := r.split(name);
      if split.Some? && (provider, split.value.0) in c.highest
          && Below(c.highest[(provider, split.value.0)], split.value.1)
      then VersionBump else New
  }

  lemma OnlyOne(providers: set<string>, provider: string, p: string)
    requires providers - {provider} == {} && p in providers
    ensures p == provider
  {
    assert p in providers - {provider} <==> p != provider;
  }

  /** The category given is the strongest that applies. */
  lemma ClassifyIsStrongest(r: Reading, lanes: seq<Lane>, c: Carried, provider: string, name: string)
    requires Indexes(r, lanes, c)
    ensures CategoryOf(r, c, provider, name) == Strongest(r, lanes, provider, name)
  {
    if name in c.anywhere && c.anywhere[name] - {provider} != {} {
      var p :| p in c.anywhere[name] - {provider};
      var i :| 0 <= i < |lanes| && lanes[i].provider == p && r.canonical(lanes[i].model) == name;
    } else {
      forall i | 0 <= i < |lanes| && r.canonical(lanes[i].model) == name ensures lanes[i].provider == provider {
        assert OnProvider(r, lanes, lanes[i].provider, name);
        OnlyOne(c.anywhere[name], provider, lanes[i].provider);
      }
      var split := r.split(name);
      if split.Some? && (provider, split.value.0) in c.highest {
        BumpIs(r, lanes, c, provider, split.value.0, split.value.1);
      }
    }
  }

  lemma BumpIs(r: Reading, lanes: seq<Lane>, c: Carried, provider: string, f: Family, v: Version)
    requires Indexes(r, lanes, c) && (provider, f) in c.highest
    ensures Below(c.highest[(provider, f)], v) <==> AboveAll(r, lanes, provider, f, v)
  {
    var top := c.highest[(provider, f)];
    assert HighestIs(r, lanes, provider, f, top);
    if Below(top, v) {
      forall i, w | 0 <= i < |lanes| && InFamily(r, lanes[i], provider, f, w) ensures Below(w, v) {
        BelowTrans(w, top, v);
      }
    }
  }

  // ---------------------------------------------------------------- the diff

  /** A provider this deployment holds a credential for, and the key the source files it under. */
  datatype Dialable = Dialable(provider: string, sourceKey: string)

  type Source = map<string, seq<Listed>>

  /** The source lists a chat spelling of this name where this provider is filed, and the catalog does not carry
      the name on this provider. */
  ghost predicate Missing(r: Reading, lanes: seq<Lane>, source: Source, dialable: seq<Dialable>, provider: string,
                          name: string) {
    !OnProvider(r, lanes, provider, name) && exists d, m :: d in dialable && Lists(r, source, d, m, provider, name)
  }

  ghost predicate Lists(r: Reading, source: Source, d: Dialable, m: Listed, provider: string, name: string) {
    d.provider == provider && d.sourceKey in source && m in source[d.sourceKey] && m.chat
        && r.canonical(m.model) == name
  }

  ghost predicate Stands(r: Reading, f: Finding, provider: string, name: string) {
    f.provider == provider && r.canonical(f.model) == name
  }

  /** A finding stands for a listed chat model that is not carried there, in the strongest category. */
  ghost predicate Sound(r: Reading, lanes: seq<Lane>, source: Source, dialable: seq<Dialable>, x: Scored) {
    var f := x.finding;
    && !OnProvider(r, lanes, f.provider, r.canonical(f.model))
    && f.category == Strongest(r, lanes, f.provider, r.canonical(f.model))
    && (exists d, m ::
          d in dialable && Lists(r, source, d, m, f.provider, r.canonical(f.model))
          && m.model == f.model && m.release == x.release)
  }

  ghost predicate OnePerModel(r: Reading, found: seq<Scored>) {
    forall i, j :: 0 <= i < j < |found| ==>
      (found[i].finding.provider, r.canonical(found[i].finding.model)) !=
      (found[j].finding.provider, r.canonical(found[j].finding.model))
  }

  /** The seen set holds the provider and name of every finding, and nothing else. */
  ghost predicate SeenIs(r: Reading, found: seq<Scored>, seen: set<(string, string)>) {
    forall p, n :: (p, n) in seen <==> exists i :: 0 <= i < |found| && Stands(r, found[i].finding, p, n)
  }

  ghost predicate FoundOk(r: Reading, lanes: seq<Lane>, source: Source, dialable: seq<Dialable>, found: seq<Scored>,
                          seen: set<(string, string)>) {
    && (forall x :: x in found ==> Sound(r, lanes, source, dialable, x))
    && OnePerModel(r, found) && SeenIs(r, found, seen)
  }

  /** The part of the source that has been gone through: whole providers, and so much of the one at hand. */
  ghost predicate Covered(r: Reading, lanes: seq<Lane>, source: Source, past: seq<Dialable>, d: Dialable,
                          models: seq<Listed>, seen: set<(string, string)>)
  {
    && (forall p, n :: Missing(r, lanes, source, past, p, n) ==> (p, n) in seen)
    && (forall m :: m in models && m.chat && !OnProvider(r, lanes, d.provider, r.canonical(m.model)) ==>
        (d.provider, r.canonical(m.model)) in seen)
  }

  lemma FoundPush(r: Reading, lanes: seq<Lane>, source: Source, dialable: seq<Dialable>, found: seq<Scored>,
                  seen: set<(string, string)>, x: Scored)
    requires FoundOk(r, lanes, source, dialable, found, seen) && Sound(r, lanes, source, dialable, x)
    requires (x.finding.provider, r.canonical(x.finding.model)) !in seen
    ensures FoundOk(r, lanes, source, dialable, found + [x],
                    seen + {(x.finding.provider, r.canonical(x.finding.model))})
  {
    var found', seen' := found + [x], seen + {(x.finding.provider, r.canonical(x.finding.model))};
    assert forall y :: y in found' <==> y in found || y == x;
    forall i | 0 <= i < |found| ensures (found[i].finding.provider, r.canonical(found[i].finding.model)) in seen {
      assert Stands(r, found[i].finding, found[i].finding.provider, r.canonical(found[i].finding.model));
    }
    forall p, n ensures (p, n) in seen' <==> exists i :: 0 <= i < |found'| && Stands(r, found'[i].finding, p, n) {
      if (p, n) in seen {
        var i :| 0 <= i < |found| && Stands(r, found[i].finding, p, n);
        assert found'[i] == found[i];
      }
      if (p, n) == (x.finding.provider, r.canonical(x.finding.model)) {
        assert Stands(r, found'[|found|].finding, p, n);
      }
    }
  }

  /** One provider's listing. */
  method ScanProvider(r: Reading, ghost lanes: seq<Lane>, source: Source, ghost dialable: seq<Dialable>,
                      ghost past: seq<Dialable>, carried: Carried, d: Dialable, found0: seq<Scored>,
                      seen0: set<(string, string)>)
    returns (found: seq<Scored>, seen: set<(string, string)>)
    requires Indexes(r, lanes, carried) && d in dialable && d.sourceKey in source
    requires FoundOk(r, lanes, source, dialable, found0, seen0) && Covered(r, lanes, source, past, d, [], seen0)
    ensures FoundOk(r, lanes, source, dialable, found, seen)
    ensures Covered(r, lanes, source, past, d, source[d.sourceKey], seen)
  {
    var models := source[d.sourceKey];
    found, seen := found0, seen0;
    var i := 0;
    while i < |models|
      invariant 0 <= i <= |models|
      invariant FoundOk(r, lanes, source, dialable, found, seen)
      invariant Covered(r, lanes, source, past, d, models[..i], seen)
    {
      var m := models[i];
      var name := r.canonical(m.model);
      assert models[..i + 1] == models[..i] + [m];
      if (d.provider, name) !in carried.here && m.chat && (d.provider, name) !in seen {
        var x := Scored(Finding(CategoryOf(r, carried, d.provider, name), d.provider, m.model), m.release);
        ClassifyIsStrongest(r, lanes, carried, d.provider, name);
        assert Lists(r, source, d, m, d.provider, name);
        FoundPush(r, lanes, source, dialable, found, seen, x);
        found, seen := found + [x], seen + {(d.provider, name)};
      }
      i := i + 1;
    }
    assert models[..i] == models;
  }

  lemma PastGrows(r: Reading, lanes: seq<Lane>, source: Source, past: seq<Dialable>, d: Dialable,
                  seen: set<(string, string)>)
    requires forall p, n :: Missing(r, lanes, source, past, p, n) ==> (p, n) in seen
    requires d.sourceKey in source ==>
      forall m :: m in source[d.sourceKey] && m.chat && !OnProvider(r, lanes, d.provider, r.canonical(m.model)) ==>
          (d.provider, r.canonical(m.model)) in seen
    ensures forall p, n :: Missing(r, lanes, source, past + [d], p, n) ==> (p, n) in seen
  {
    forall p, n | Missing(r, lanes, source, past + [d], p, n) ensures (p, n) in seen {
      var e, m :| e in past + [d] && Lists(r, source, e, m, p, n);
      if e in past { assert Missing(r, lanes, source, past, p, n); }
    }
  }

  /** The whole diff, before ageing: sound, complete, and exactly one finding for every missing model. */
  method Discover(r: Reading, lanes: seq<Lane>, source: Source, dialable: seq<Dialable>, cutoff: int)
    returns (findings: seq<Finding>, ghost found: seq<Scored>)
    ensures forall x :: x in found ==> Sound(r, lanes, source, dialable, x)
    ensures OnePerModel(r, found)
    ensures forall p, n :: Missing(r, lanes, source, dialable, p, n) <==>
        exists i :: 0 <= i < |found| && Stands(r, found[i].finding, p, n)
    ensures findings == Aged(found, cutoff)
  {
    var carried := FromCatalog(r, lanes);
    var scored: seq<Scored>, seen: set<(string, string)> := [], {};
    var i := 0;
    while i < |dialable|
      invariant 0 <= i <= |dialable| && FoundOk(r, lanes, source, dialable, scored, seen)
      invariant forall p, n :: Missing(r, lanes, source, dialable[..i], p, n) ==> (p, n) in seen
    {
      var d := dialable[i];
      if d.sourceKey in source {
        scored, seen := ScanProvider(r, lanes, source, dialable, dialable[..i], carried, d, scored, seen);
      }
      PastGrows(r, lanes, source, dialable[..i], d, seen);
      assert dialable[..i + 1] == dialable[..i] + [d];
      i := i + 1;
    }
    assert dialable[..i] == dialable;
    FoundIsMissing(r, lanes, source, dialable, scored, seen);
    found := scored;
    findings := FilterNewByRecency(scored, cutoff);
  }

  /** The router's own diff. */
  method DiscoverCatalog(lanes: seq<Lane>, source: Source, dialable: seq<Dialable>, cutoff: int)
    returns (findings: seq<Finding>, ghost found: seq<Scored>)
    ensures var r := CatalogReading();
      && (forall x :: x in found ==> Sound(r, lanes, source, dialable, x)) && OnePerModel(r, found)
      && (forall p, n :: Missing(r, lanes, source, dialable, p, n) <==>
          exists i :: 0 <= i < |found| && Stands(r, found[i].finding, p, n))
    ensures findings == Aged(found, cutoff)
  {
    findings, found := Discover(CatalogReading(), lanes, source, dialable, cutoff);
  }

  lemma FoundIsMissing(r: Reading, lanes: seq<Lane>, source: Source, dialable: seq<Dialable>, found: seq<Scored>,
                       seen: set<(string, string)>)
    requires FoundOk(r, lanes, source, dialable, found, seen)
    requires forall p, n :: Missing(r, lanes, source, dialable, p, n) ==> (p, n) in seen
    ensures forall p, n :: Missing(r, lanes, source, dialable, p, n) <==>
        exists i :: 0 <= i < |found| && Stands(r, found[i].finding, p, n)
  {
    forall p, n, i | 0 <= i < |found| && Stands(r, found[i].finding, p, n)
      ensures Missing(r, lanes, source, dialable, p, n)
    {
      assert Sound(r, lanes, source, dialable, found[i]);
    }
  }

  // ---------------------------------------------------------------- ageing

  predicate IsNew(x: Scored) {
    x.finding.category == New
  }

  predicate Fresh(x: Scored, cutoff: int) {
    x.release.None? || x.release.value >= cutoff
  }

  /** Newest first, undated last. */
  predicate NoOlder(a: Scored, b: Scored) {
    b.release.None? || (a.release.Some? && a.release.value >= b.release.value)
  }

  function NewestFirst(s: seq<Scored>): seq<Scored> {
    StableSort(s, NoOlder)
  }

  function Findings(s: seq<Scored>): seq<Finding> {
    seq(|s|, i requires 0 <= i < |s| => s[i].finding)
  }

  function Kept(s: seq<Scored>, cutoff: int): seq<Scored> {
    Filter(s, (x: Scored) => !IsNew(x)) + NewestFirst(Filter(s, (x: Scored) => IsNew(x) && Fresh(x, cutoff)))
  }

  function Aged(s: seq<Scored>, cutoff: int): seq<Finding> {
    Findings(Kept(s, cutoff))
  }

  method FilterNewByRecency(scored: seq<Scored>, cutoff: int) returns (findings: seq<Finding>)
    ensures findings == Aged(scored, cutoff)
  {
    var other: seq<Scored>, fresh_: seq<Scored> := [], [];
    ghost var isOther, isFresh := (x: Scored) => !IsNew(x), (x: Scored) => IsNew(x) && Fresh(x, cutoff);
    var i := 0;
    while i < |scored|
      invariant 0 <= i <= |scored| && other == Filter(scored[..i], isOther) && fresh_ == Filter(scored[..i], isFresh)
    {
      var x := scored[i];
      FilterSnoc(scored[..i], x, isOther);
      FilterSnoc(scored[..i], x, isFresh);
      assert scored[..i + 1] == scored[..i] + [x];
      if !IsNew(x) { other := other + [x]; } else if Fresh(x, cutoff) { fresh_ := fresh_ + [x]; }
      i := i + 1;
    }
    assert scored[..i] == scored;
    findings := Findings(other + NewestFirst(fresh_));
  }

  predicate SameDate(x: Scored, d: Option<int>) {
    x.release == d
  }

  /** The sort is stable: the findings of any one date keep their order. */
  lemma NewestStable(s: seq<Scored>, d: Option<int>)
    ensures Filter(NewestFirst(s), (x: Scored) => SameDate(x, d)) == Filter(s, (x: Scored) => SameDate(x, d))
  {
    SortStable(s, NoOlder, (x: Scored) => SameDate(x, d));
  }

  /** Newest first, and what has no date last. */
  ghost predicate Recent(s: seq<Scored>) {
    forall i, j :: 0 <= i < j < |s| ==>
      s[j].release.None? || (s[i].release.Some? && s[i].release.value >= s[j].release.value)
  }

  lemma {:induction false} SortedRecent(s: seq<Scored>)
    requires Sorted(s, NoOlder)
    ensures Recent(s)
  {
    if s != [] {
      SortedRecent(s[1..]);
      forall i, j | 0 <= i < j < |s|
        ensures s[j].release.None? || (s[i].release.Some? && s[i].release.value >= s[j].release.value)
      {
        assert s[j] == s[1..][j - 1] && s[j] in s[1..];
        if i > 0 { assert s[i] == s[1..][i - 1]; }
      }
    }
  }

  /** Ageing drops exactly the new findings dated before the cutoff. The others come first, as they were; then the
      new ones, newest first and undated last, those of one date in the order they were found. */
  lemma AgeingLaw(s: seq<Scored>, cutoff: int) returns (others: seq<Scored>, recent: seq<Scored>)
    ensures |Aged(s, cutoff)| == |others + recent|
    ensures forall i :: 0 <= i < |others + recent| ==> Aged(s, cutoff)[i] == (others + recent)[i].finding
    ensures others == Filter(s, (x: Scored) => x.finding.category != New)
    ensures forall x :: x in recent <==>
        x in s && x.finding.category == New && !(x.release.Some? && x.release.value < cutoff)
    ensures Recent(recent)
    ensures var dropped := Filter(s, (x: Scored) =>
                x.finding.category == New && x.release.Some? && x.release.value < cutoff);
      multiset(others) + multiset(recent) + multiset(dropped) == multiset(s)
  {
    var isOther, isRecent := (x: Scored) => !IsNew(x), (x: Scored) => IsNew(x) && Fresh(x, cutoff);
    others, recent := Filter(s, isOther), NewestFirst(Filter(s, isRecent));
    SameFilter(s, isOther, (x: Scored) => x.finding.category != New);
    SortSorted(Filter(s, isRecent), NoOlder);
    SortedRecent(recent);
    SortCounts(Filter(s, isRecent), NoOlder);
    forall x ensures x in recent <==>
        x in s && x.finding.category == New && !(x.release.Some? && x.release.value < cutoff) {
      FilterHas(s, isRecent, x);
    }
    AgeingCounts(s, cutoff);
  }

  lemma {:induction false} SameFilter(s: seq<Scored>, a: Scored -> bool, b: Scored -> bool)
    requires forall x :: a(x) == b(x)
    ensures Filter(s, a) == Filter(s, b)
  {
    if s != [] { SameFilter(s[1..], a, b); }
  }

  /** Three tests of which exactly one holds of everything share a list out. */
  lemma {:induction false} SharedOut(s: seq<Scored>, a: Scored -> bool, b: Scored -> bool, c: Scored -> bool)
    requires forall x :: (a(x) && !b(x) && !c(x)) || (!a(x) && b(x) && !c(x)) || (!a(x) && !b(x) && c(x))
    ensures multiset(Filter(s, a)) + multiset(Filter(s, b)) + multiset(Filter(s, c)) == multiset(s)
  {
    if s != [] {
      SharedOut(s[1..], a, b, c);
      assert s == [s[0]] + s[1..];
    }
  }

  lemma AgeingCounts(s: seq<Scored>, cutoff: int)
    ensures var dropped := Filter(s, (x: Scored) =>
                x.finding.category == New && x.release.Some? && x.release.value < cutoff);
      multiset(Filter(s, (x: Scored) => !IsNew(x))) + multiset(Filter(s, (x: Scored) => IsNew(x) && Fresh(x, cutoff)))
      + multiset(dropped) == multiset(s)
  {
    SharedOut(s, (x: Scored) => !IsNew(x), (x: Scored) => IsNew(x) && Fresh(x, cutoff),
              (x: Scored) => x.finding.category == New && x.release.Some? && x.release.value < cutoff);
  }
}
