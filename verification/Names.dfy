/** Model names: the bare name two catalogs can be compared by, and the version inside it. Names are ASCII here, as
    the catalogs' are. */
module Names {
  import opened Wrappers
  import opened Decimals
  import opened Texts

  /** A version as its numbers. */
  type Version = seq<nat>

  /** Everything around the version. */
  datatype Family = Family(prefix: string, suffix: string)

  // ---------------------------------------------------------------- the bare name

  function LastSegment(s: string): string {
    if '/' in s then LastSegment(s[1..]) else s
  }

  /** Without the first of these prefixes it starts with. */
  function StripPrefix(s: string, prefixes: seq<string>): string {
    if prefixes == [] then s else if prefixes[0] <= s then s[|prefixes[0]|..] else StripPrefix(s, prefixes[1..])
  }

  predicate EndsWith(s: string, suffix: string) {
    |suffix| <= |s| && s[|s| - |suffix|..] == suffix
  }

  function StripSuffix(s: string, suffixes: seq<string>): string {
    if suffixes == [] then s
    else if EndsWith(s, suffixes[0]) then s[..|s| - |suffixes[0]|]
    else StripSuffix(s, suffixes[1..])
  }

  function BeforeAt(s: string): string {
    if s == [] || s[0] == '@' then [] else [s[0]] + BeforeAt(s[1..])
  }

  /** Ends in a dash and an eight-digit date. */
  predicate Dated(s: string) {
    |s| >= 9 && s[|s| - 9] == '-' && AllDigits(s[|s| - 8..])
  }

  function Undated(s: string): string {
    if Dated(s) then s[..|s| - 9] else s
  }

  /** A `p` between two digits is a dot. */
  predicate IsFolded(s: string, i: nat)
    requires i < |s|
  {
    s[i] == 'p' && 0 < i && IsDigit(s[i - 1]) && i + 1 < |s| && IsDigit(s[i + 1])
  }

  function Folded(s: string): string {
    seq(|s|, i requires 0 <= i < |s| => if IsFolded(s, i) then '.' else s[i])
  }

  const REGIONS := ["us.", "eu.", "au.", "apac.", "global."]
  const VENDORS := ["anthropic.", "xai.", "amazon.", "deepseek.", "meta.", "mistral.", "cohere.", "ai21.", "qwen.",
                    "google."]
  const MARKERS := ["-v1:0", "-v1", ":0", "-maas", "-tput"]

  /** In lower case, without routing path, region and vendor. */
  function Bare(model: string): string {
    StripPrefix(StripPrefix(Lowered(LastSegment(model)), REGIONS), VENDORS)
  }

  /** And without anything from an at-sign on. */
  function Stem(model: string): string {
    BeforeAt(Bare(model))
  }

  function Canonical(model: string): string {
    Folded(Undated(StripSuffix(Stem(model), MARKERS)))
  }

  method StripFirstPrefix(s: string, prefixes: seq<string>) returns (bare: string)
    ensures bare == StripPrefix(s, prefixes)
  {
    var i := 0;
    while i < |prefixes|
      invariant 0 <= i <= |prefixes| && StripPrefix(s, prefixes) == StripPrefix(s, prefixes[i..])
    {
      if prefixes[i] <= s { return s[|prefixes[i]|..]; }
      assert prefixes[i..][1..] == prefixes[i + 1..];
      i := i + 1;
    }
    return s;
  }

  method StripFirstSuffix(s: string, suffixes: seq<string>) returns (bare: string)
    ensures bare == StripSuffix(s, suffixes)
  {
    var i := 0;
    while i < |suffixes|
      invariant 0 <= i <= |suffixes| && StripSuffix(s, suffixes) == StripSuffix(s, suffixes[i..])
    {
      if EndsWith(s, suffixes[i]) { return s[..|s| - |suffixes[i]|]; }
      assert suffixes[i..][1..] == suffixes[i + 1..];
      i := i + 1;
    }
    return s;
  }

  method CanonicalName(model: string) returns (name: string)
    ensures name == Canonical(model)
  {
    var bare := Lowered(LastSegment(model));
    bare := StripFirstPrefix(bare, REGIONS);
    bare := StripFirstPrefix(bare, VENDORS);
    bare := BeforeAt(bare);
    bare := StripFirstSuffix(bare, MARKERS);
    if Dated(bare) { bare := bare[..|bare| - 9]; }
    var folded: string := "";
    var index := 0;
    while index < |bare|
      invariant 0 <= index <= |bare| && |folded| == index
      invariant forall k :: 0 <= k < index ==> folded[k] == if IsFolded(bare, k) then '.' else bare[k]
    {
      folded := folded + [if IsFolded(bare, index) then '.' else bare[index]];
      index := index + 1;
    }
    assert folded == Folded(bare);
    name := folded;
  }

  // ---------------------------------------------------------------- what is left of a name

  /** The first of these that the text starts with, or nothing if it starts with none. */
  ghost predicate Leads(p: string, s: string, prefixes: seq<string>) {
    if p == "" then forall q :: q in prefixes ==> !(q <= s)
    else exists i :: 0 <= i < |prefixes| && prefixes[i] == p && p <= s && forall j :: 0 <= j < i ==> !(prefixes[j] <= s)
  }

  /** The first of these that the text ends with, likewise. */
  ghost predicate Trails(m: string, s: string, suffixes: seq<string>) {
    if m == "" then forall q :: q in suffixes ==> !Closes(q, s)
    else
      exists i :: 0 <= i < |suffixes| && suffixes[i] == m && Closes(m, s)
        && forall j :: 0 <= j < i ==> !Closes(suffixes[j], s)
  }

  ghost predicate Closes(suffix: string, s: string) {
    |s| >= |suffix| && forall i :: 0 <= i < |suffix| ==> s[|s| - |suffix| + i] == suffix[i]
  }

  lemma ClosesIs(suffix: string, s: string)
    ensures EndsWith(s, suffix) <==> Closes(suffix, s)
  {
    if EndsWith(s, suffix) {
      forall i | 0 <= i < |suffix| ensures s[|s| - |suffix| + i] == suffix[i] {
        assert suffix[i] == s[|s| - |suffix|..][i];
      }
    }
  }

  lemma {:induction false} StripPrefixLaw(s: string, prefixes: seq<string>) returns (p: string)
    requires forall q :: q in prefixes ==> q != ""
    ensures Leads(p, s, prefixes) && s == p + StripPrefix(s, prefixes)
  {
    p := "";
    if prefixes != [] {
      assert prefixes[0] in prefixes && forall q :: q in prefixes[1..] ==> q in prefixes;
      if prefixes[0] <= s {
        p := prefixes[0];
      } else {
        p := StripPrefixLaw(s, prefixes[1..]);
        if p != "" {
          var i :| 0 <= i < |prefixes[1..]| && prefixes[1..][i] == p && p <= s
            && forall j :: 0 <= j < i ==> !(prefixes[1..][j] <= s);
          assert prefixes[i + 1] == p && forall j :: 0 < j < i + 1 ==> prefixes[j] == prefixes[1..][j - 1];
        } else {
          assert forall q :: q in prefixes ==> q == prefixes[0] || q in prefixes[1..];
        }
      }
    }
  }

  lemma {:induction false} StripSuffixLaw(s: string, suffixes: seq<string>) returns (m: string)
    requires forall q :: q in suffixes ==> q != ""
    ensures Trails(m, s, suffixes) && s == StripSuffix(s, suffixes) + m
  {
    m := "";
    if suffixes != [] {
      assert suffixes[0] in suffixes && forall q :: q in suffixes[1..] ==> q in suffixes;
      ClosesIs(suffixes[0], s);
      if EndsWith(s, suffixes[0]) {
        m := suffixes[0];
      } else {
        m := StripSuffixLaw(s, suffixes[1..]);
        if m != "" {
          var i :| 0 <= i < |suffixes[1..]| && suffixes[1..][i] == m && Closes(m, s)
            && forall j :: 0 <= j < i ==> !Closes(suffixes[1..][j], s);
          assert suffixes[i + 1] == m && forall j :: 0 < j < i + 1 ==> suffixes[j] == suffixes[1..][j - 1];
        } else {
          assert forall q :: q in suffixes ==> q == suffixes[0] || q in suffixes[1..];
        }
      }
    }
  }

  lemma {:induction false} LastSegmentLaw(s: string) returns (path: string)
    ensures s == path + LastSegment(s) && '/' !in LastSegment(s) && (path == "" || path[|path| - 1] == '/')
  {
    path := "";
    if '/' in s {
      var rest := LastSegmentLaw(s[1..]);
      path := [s[0]] + rest;
      if rest == "" {
        assert s == [s[0]] + s[1..];
      }
    }
  }

  lemma {:induction false} BeforeAtLaw(s: string) returns (at: string)
    ensures s == BeforeAt(s) + at && '@' !in BeforeAt(s) && (at == "" || at[0] == '@')
  {
    at := s;
    if s != [] && s[0] != '@' {
      at := BeforeAtLaw(s[1..]);
    }
  }

  ghost function Regions(): seq<string> {
    ["us.", "eu.", "au.", "apac.", "global."]
  }

  ghost function Vendors(): seq<string> {
    ["anthropic.", "xai.", "amazon.", "deepseek.", "meta.", "mistral.", "cohere.", "ai21.", "qwen.", "google."]
  }

  ghost function Markers(): seq<string> {
    ["-v1:0", "-v1", ":0", "-maas", "-tput"]
  }

  /** A dash and eight digits. */
  ghost predicate Dating(date: string) {
    |date| == 9 && date[0] == '-' && forall i :: 1 <= i < 9 ==> '0' <= date[i] <= '9'
  }

  /** A text that ends in a date, with the date; or one that ends in none, with nothing. */
  ghost predicate Dates(name: string, date: string) {
    Dating(date) || (date == "" && forall last :: Dating(last) ==> !Closes(last, name))
  }

  /** The parts of a name, in lower case: what routes to it, its region, its vendor, the name proper, a snapshot date, a
      serving marker, and what follows an at-sign. Each is there if the text has one, and only one of each. */
  ghost predicate Reads(model: string, path: string, region: string, vendor: string, name: string, date: string,
                        marker: string, at: string)
  {
    var stem := name + date + marker;
    && Lowered(model) == path + (region + (vendor + (stem + at)))
    && '/' !in region + (vendor + (stem + at)) && (path == "" || path[|path| - 1] == '/')
    && Leads(region, region + (vendor + (stem + at)), Regions()) && Leads(vendor, vendor + (stem + at), Vendors())
    && '@' !in stem && (at == "" || at[0] == '@')
    && Trails(marker, stem, Markers()) && Dates(name, date)
  }

  /** The name proper with every `p` between two digits made a dot. */
  ghost predicate Dots(name: string, dotted: string) {
    && |dotted| == |name|
    && forall i :: 0 <= i < |name| ==>
         dotted[i] == if name[i] == 'p' && 0 < i < |name| - 1 && '0' <= name[i - 1] <= '9' && '0' <= name[i + 1] <= '9'
                      then '.' else name[i]
  }

  lemma FoldDots(name: string)
    ensures Dots(name, Folded(name))
  {
  }

  /** The comparable name is the name proper, its dots restored. */
  lemma NameLaw(model: string) returns (path: string, region: string, vendor: string, name: string, date: string,
                                        marker: string, at: string)
    ensures Reads(model, path, region, vendor, name, date, marker, at) && Dots(name, Canonical(model))
  {
    path := LastSegmentLaw(Lowered(model));
    LoweredLast(model);
    region, vendor := BareLaw(LastSegment(Lowered(model)));
    at := BeforeAtLaw(Bare(model));
    name, date, marker := StemLaw(Stem(model));
    FoldDots(name);
  }

  lemma BareLaw(segment: string) returns (region: string, vendor: string)
    ensures var bare := StripPrefix(StripPrefix(segment, REGIONS), VENDORS);
      && segment == region + (vendor + bare)
      && Leads(region, region + (vendor + bare), Regions()) && Leads(vendor, vendor + bare, Vendors())
  {
    assert REGIONS == Regions() && VENDORS == Vendors();
    region := StripPrefixLaw(segment, REGIONS);
    vendor := StripPrefixLaw(StripPrefix(segment, REGIONS), VENDORS);
  }

  lemma StemLaw(stem: string) returns (name: string, date: string, marker: string)
    ensures stem == name + date + marker && Trails(marker, stem, Markers()) && Dates(name, date)
    ensures name == Undated(StripSuffix(stem, MARKERS))
  {
    assert MARKERS == Markers();
    marker := StripSuffixLaw(stem, MARKERS);
    name, date := DateLaw(StripSuffix(stem, MARKERS));
  }

  lemma DateLaw(s: string) returns (name: string, date: string)
    ensures s == name + date && name == Undated(s) && Dates(name, date)
  {
    name := Undated(s);
    date := s[|name|..];
    if Dated(s) {
      var digits := s[|s| - 8..];
      forall i | 1 <= i < 9 ensures '0' <= date[i] <= '9' {
        assert date[i] == digits[i - 1];
      }
    } else {
      forall last | Dating(last) ensures !Closes(last, s) {
        if Closes(last, s) { ClosedIsDated(s, last); }
      }
    }
  }

  lemma ClosedIsDated(s: string, last: string)
    requires Dating(last) && Closes(last, s)
    ensures Dated(s)
  {
    assert s[|s| - 9 + 0] == last[0];
    var digits := s[|s| - 8..];
    forall i | 0 <= i < 8 ensures IsDigit(digits[i]) {
      assert s[|s| - 9 + (i + 1)] == last[i + 1];
    }
  }

  lemma {:induction false} LoweredLast(s: string)
    ensures LastSegment(Lowered(s)) == Lowered(LastSegment(s))
  {
    assert '/' in s <==> '/' in Lowered(s) by {
      if '/' in s {
        var i :| 0 <= i < |s| && s[i] == '/';
        assert Lowered(s)[i] == '/';
      }
      if '/' in Lowered(s) {
        var i :| 0 <= i < |s| && Lowered(s)[i] == '/';
        assert s[i] == '/';
      }
    }
    if '/' in s {
      LoweredLast(s[1..]);
      assert Lowered(s)[1..] == Lowered(s[1..]);
    }
  }

  // ---------------------------------------------------------------- what makes no difference to it

  lemma {:induction false} SegmentOf(path: string, rest: string)
    ensures LastSegment(path + "/" + rest) == LastSegment(rest)
  {
    var s := path + "/" + rest;
    assert s[|path|] == '/';
    assert '/' in s;
    if path == [] {
      assert s[1..] == rest;
    } else {
      SegmentOf(path[1..], rest);
      assert s[1..] == path[1..] + "/" + rest;
    }
  }

  /** A routing path in front of a name is no part of it. */
  lemma PathIsNoName(path: string, model: string)
    ensures Canonical(path + "/" + model) == Canonical(model)
  {
    SegmentOf(path, model);
  }

  lemma LoweredSegment(s: string)
    ensures Lowered(LastSegment(Lowered(s))) == Lowered(LastSegment(s))
  {
    LoweredLast(s);
    assert Lowered(Lowered(LastSegment(s))) == Lowered(LastSegment(s));
  }

  /** Nor is the case it is spelled in. */
  lemma CaseIsNoName(a: string, b: string)
    requires Lowered(a) == Lowered(b)
    ensures Canonical(a) == Canonical(b)
  {
    LoweredSegment(a);
    LoweredSegment(b);
  }

  function Snapshot(date: string): string {
    "-" + date
  }

  lemma {:induction false} SegmentKeepsTail(s: string, tail: string)
    requires '/' !in tail
    ensures Lowered(LastSegment(s + tail)) == Lowered(LastSegment(s)) + Lowered(tail)
  {
    assert '/' in s + tail <==> '/' in s;
    if '/' in s {
      SegmentKeepsTail(s[1..], tail);
      assert (s + tail)[1..] == s[1..] + tail;
    }
  }

  lemma PrefixStops(p: string, s: string, tail: string)
    requires tail != [] && tail[0] == '-' && '-' !in p
    ensures p <= s + tail <==> p <= s
  {
    var whole := s + tail;
    if |p| <= |s| {
      assert whole[..|p|] == s[..|p|];
    } else {
      assert whole[|s|] == '-' && p[|s|] in p;
    }
  }

  lemma {:induction false} PrefixKeepsTail(s: string, tail: string, prefixes: seq<string>)
    requires tail != [] && tail[0] == '-' && forall p :: p in prefixes ==> '-' !in p
    ensures StripPrefix(s + tail, prefixes) == StripPrefix(s, prefixes) + tail
  {
    if prefixes == [] {
    } else {
      var p := prefixes[0];
      assert p in prefixes && forall q :: q in prefixes[1..] ==> q in prefixes;
      PrefixStops(p, s, tail);
      if p <= s {
        assert (s + tail)[|p|..] == s[|p|..] + tail;
      } else {
        PrefixKeepsTail(s, tail, prefixes[1..]);
      }
    }
  }

  lemma {:induction false} BeforeAtAll(s: string)
    requires '@' !in s
    ensures BeforeAt(s) == s
  {
    if s == [] {
    } else {
      BeforeAtAll(s[1..]);
    }
  }

  lemma {:induction false} BeforeAtKeepsTail(s: string, tail: string)
    requires '@' !in tail
    ensures BeforeAt(s + tail) == if '@' in s then BeforeAt(s) else BeforeAt(s) + tail
  {
    if s == [] {
      assert s + tail == tail;
      BeforeAtAll(tail);
    } else if s[0] == '@' {
      assert (s + tail)[0] == '@';
    } else {
      var rest := s[1..];
      BeforeAtKeepsTail(rest, tail);
      assert s + tail == [s[0]] + (rest + tail) && (s + tail)[1..] == rest + tail;
      assert '@' in s <==> '@' in rest by { assert s == [s[0]] + rest; }
      assert [s[0]] + (BeforeAt(rest) + tail) == BeforeAt(s) + tail;
    }
  }

  lemma {:induction false} NoMarkerEndsInDigits(s: string, suffixes: seq<string>, n: nat)
    requires n <= |s| && AllDigits(s[|s| - n..])
    requires forall m :: m in suffixes ==> 0 < |m| <= n && !IsDigit(m[0])
    ensures StripSuffix(s, suffixes) == s
  {
    if suffixes == [] {
    } else {
      var m := suffixes[0];
      assert m in suffixes && forall x :: x in suffixes[1..] ==> x in suffixes;
      assert s[|s| - |m|] == s[|s| - n..][n - |m|];
      assert !EndsWith(s, m);
      NoMarkerEndsInDigits(s, suffixes[1..], n);
    }
  }

  lemma UndatedLaw(head: string, date: string)
    requires |date| == 8 && AllDigits(date)
    ensures Undated(head + Snapshot(date)) == head
  {
    var s := head + Snapshot(date);
    assert s[|s| - 8..] == date;
    assert s[..|s| - 9] == head;
  }

  lemma SnapshotStem(model: string, date: string)
    requires |date| == 8 && AllDigits(date)
    ensures Stem(model + Snapshot(date)) == if '@' in Bare(model) then Stem(model) else Stem(model) + Snapshot(date)
  {
    var tail := Snapshot(date);
    assert forall c :: c in tail ==> c == '-' || IsDigit(c);
    SegmentKeepsTail(model, tail);
    assert Lowered(tail) == tail;
    var segment := Lowered(LastSegment(model));
    PrefixKeepsTail(segment, tail, REGIONS);
    PrefixKeepsTail(StripPrefix(segment, REGIONS), tail, VENDORS);
    BeforeAtKeepsTail(Bare(model), tail);
  }

  lemma SnapshotCanonical(model: string, date: string)
    requires |date| == 8 && AllDigits(date)
    ensures Canonical(model + Snapshot(date)) == if '@' in Bare(model) then Canonical(model) else Folded(Stem(model))
  {
    SnapshotStem(model, date);
    if '@' !in Bare(model) {
      var s := Stem(model) + Snapshot(date);
      assert s[|s| - 8..] == date;
      NoMarkerEndsInDigits(s, MARKERS, 8);
      UndatedLaw(Stem(model), date);
    }
  }

  /** A snapshot date put behind a name is no part of it, exactly if the name had no serving marker or date of its own
      there: only one of each comes off, the marker first. */
  lemma DateIsNoName(model: string, date: string)
    requires |date| == 8 && AllDigits(date)
    ensures var stem := Stem(model);
      Canonical(model + Snapshot(date)) == Canonical(model) <==>
        '@' in Bare(model) || (StripSuffix(stem, MARKERS) == stem && !Dated(stem))
  {
    SnapshotCanonical(model, date);
    StripShortens(Stem(model), MARKERS);
  }

  lemma {:induction false} StripShortens(s: string, suffixes: seq<string>)
    requires forall m :: m in suffixes ==> m != []
    ensures |StripSuffix(s, suffixes)| <= |s| && (|StripSuffix(s, suffixes)| == |s| ==> StripSuffix(s, suffixes) == s)
  {
    if suffixes == [] {
    } else {
      assert suffixes[0] in suffixes && forall x :: x in suffixes[1..] ==> x in suffixes;
      StripShortens(s, suffixes[1..]);
    }
  }

  /** The dot folding is done in one pass: a second finds nothing. */
  lemma FoldedOnce(s: string)
    ensures Folded(Folded(s)) == Folded(s)
    ensures forall i :: 0 <= i < |s| ==> !IsFolded(Folded(s), i)
  {
  }

  // ---------------------------------------------------------------- the version

  predicate IsSeparator(c: char) {
    c == '.' || c == 'p'
  }

  /** A digit, or a separator that a digit follows. */
  predicate Extends(s: string, i: nat) {
    i < |s| && (IsDigit(s[i]) || (IsSeparator(s[i]) && i + 1 < |s| && IsDigit(s[i + 1])))
  }

  function RunEnd(s: string, i: nat): (e: nat)
    ensures i <= e && (i <= |s| ==> e <= |s|)
    ensures !Extends(s, e) && forall k :: i <= k < e ==> Extends(s, k)
    decreases |s| - i
  {
    if Extends(s, i) then RunEnd(s, i + 1) else i
  }

  function FirstDigit(s: string): (i: nat)
    ensures i <= |s| && (i < |s| ==> IsDigit(s[i])) && forall k :: 0 <= k < i ==> !IsDigit(s[k])
  {
    if s == [] || IsDigit(s[0]) then 0 else 1 + FirstDigit(s[1..])
  }

  predicate IsAlphanumeric(c: char) {
    IsDigit(c) || 'a' <= c <= 'z' || 'A' <= c <= 'Z'
  }

  /** A size unit fused to the number, and nothing after it. */
  predicate SizeAt(s: string, end: nat) {
    end < |s| && (s[end] == 'b' || s[end] == 'm' || s[end] == 'k') && (end + 1 >= |s| || !IsAlphanumeric(s[end + 1]))
  }

  const U64_MAX := 18446744073709551615

  /** The numbers of a run, read from its end; one that does not fit in 64 bits is left out. */
  function Numbers(run: string, part: string): Version
    requires AllDigits(part)
    decreases |run|
  {
    if run == [] then Number(part)
    else
      var c := run[|run| - 1];
      if IsDigit(c) then Numbers(run[..|run| - 1], [c] + part) else Numbers(run[..|run| - 1], []) + Number(part)
  }

  lemma {:induction false} NumeralNonNegative(s: string)
    requires AllDigits(s)
    ensures Numeral(s) >= 0
  {
    if s != [] { NumeralNonNegative(s[..|s| - 1]); }
  }

  function Number(part: string): Version
    requires AllDigits(part)
  {
    NumeralNonNegative(part);
    if part == [] || Numeral(part) > U64_MAX then [] else [Numeral(part)]
  }

  function SplitVersion(bare: string): Option<(Family, Version)> {
    var start := FirstDigit(bare);
    if start == |bare| then None
    else
      var end := RunEnd(bare, start);
      var version := Numbers(bare[start..end], []);
      if SizeAt(bare, end) || version == [] then None
      else Some((Family(bare[..start], bare[end..]), version))
  }

  method SplitName(bare: string) returns (split: Option<(Family, Version)>)
    ensures split == SplitVersion(bare)
  {
    var start: nat := 0;
    while start < |bare| && !IsDigit(bare[start])
      invariant start <= |bare| && forall k :: 0 <= k < start ==> !IsDigit(bare[k])
    {
      start := start + 1;
    }
    FirstDigitIs(bare, start);
    if start == |bare| { return None; }
    var end := start;
    while end < |bare| && Extends(bare, end)
      invariant start <= end <= |bare| && RunEnd(bare, start) == RunEnd(bare, end)
    {
      end := end + 1;
    }
    if SizeAt(bare, end) { return None; }
    var version := Numbers(bare[start..end], []);
    if version == [] { return None; }
    return Some((Family(bare[..start], bare[end..]), version));
  }

  lemma FirstDigitIs(s: string, i: nat)
    requires i <= |s| && (i < |s| ==> IsDigit(s[i])) && forall k :: 0 <= k < i ==> !IsDigit(s[k])
    ensures FirstDigit(s) == i
  {
  }

  /** A family and version are a cut of the name: no digit before, a run of digits and separators between, and
      what is left after, which does not go on with a digit or start with a bare size unit. */
  lemma SplitLaw(bare: string)
    requires SplitVersion(bare).Some?
    ensures var (family, version) := SplitVersion(bare).value;
      && version != []
      && (exists run :: bare == family.prefix + run + family.suffix && run != [] && IsDigit(run[0]))
      && (forall k :: 0 <= k < |family.prefix| ==> !IsDigit(family.prefix[k]))
      && (family.suffix != [] ==> !IsDigit(family.suffix[0])) && !SizeAt(family.suffix, 0)
  {
    var start := FirstDigit(bare);
    var end := RunEnd(bare, start);
    var run := bare[start..end];
    assert Extends(bare, start);
    assert bare == bare[..start] + run + bare[end..];
  }

  // ---------------------------------------------------------------- which version

  /** Digit runs with a dot or a `p` between each two. */
  ghost predicate Joins(run: string, parts: seq<string>)
    decreases |parts|
  {
    && parts != [] && parts[0] != "" && AllDigits(parts[0])
    && if |parts| == 1 then run == parts[0]
       else
         exists c, rest :: (c == '.' || c == 'p') && run == parts[0] + [c] + rest && Joins(rest, parts[1..])
  }

  /** Their numbers, the ones that fit in 64 bits. */
  ghost function Fits(parts: seq<string>): Version
    requires forall i :: 0 <= i < |parts| ==> AllDigits(parts[i])
  {
    if parts == [] then []
    else
      NumeralNonNegative(parts[0]);
      (if parts[0] == "" || Numeral(parts[0]) > 18446744073709551615 then [] else [Numeral(parts[0])])
      + Fits(parts[1..])
  }

  lemma {:induction false} JoinsDigits(run: string, parts: seq<string>)
    requires Joins(run, parts)
    ensures forall i :: 0 <= i < |parts| ==> AllDigits(parts[i])
    ensures run != "" && IsDigit(run[0]) && IsDigit(run[|run| - 1])
    ensures forall i :: 0 <= i < |run| ==> Extends(run, i)
    decreases |parts|
  {
    if |parts| > 1 {
      var c, rest :| (c == '.' || c == 'p') && run == parts[0] + [c] + rest && Joins(rest, parts[1..]);
      JoinsDigits(rest, parts[1..]);
      var n := |parts[0]|;
      forall i | 0 <= i < |parts| ensures AllDigits(parts[i]) {
        if i > 0 { assert parts[i] == parts[1..][i - 1]; }
      }
      forall i | 0 <= i < |run| ensures Extends(run, i) {
        if i > n {
          assert Extends(rest, i - n - 1) && run[i] == rest[i - n - 1];
          if i + 1 < |run| { assert run[i + 1] == rest[i - n]; }
        } else if i == n {
          assert run[i + 1] == rest[0];
        }
      }
      assert run[|run| - 1] == rest[|rest| - 1];
    }
  }

  lemma {:induction false} NumbersOfDigits(digits: string, part: string)
    requires AllDigits(digits) && AllDigits(part)
    ensures Numbers(digits, part) == Number(digits + part)
  {
    if digits == [] {
      assert digits + part == part;
    } else {
      var n := |digits| - 1;
      NumbersOfDigits(digits[..n], [digits[n]] + part);
      assert digits[..n] + ([digits[n]] + part) == digits + part;
    }
  }

  lemma {:induction false} NumbersSplit(digits: string, c: char, rest: string, part: string)
    requires AllDigits(digits) && !IsDigit(c) && AllDigits(part)
    ensures Numbers(digits + [c] + rest, part) == Number(digits) + Numbers(rest, part)
  {
    var run := digits + [c] + rest;
    if rest == [] {
      assert run == digits + [c] && run[..|run| - 1] == digits;
      NumbersOfDigits(digits, []);
      assert digits + [] == digits;
    } else {
      var n := |rest| - 1;
      var last := rest[n];
      assert run[|run| - 1] == last && run[..|run| - 1] == digits + [c] + rest[..n];
      if IsDigit(last) {
        NumbersSplit(digits, c, rest[..n], [last] + part);
      } else {
        NumbersSplit(digits, c, rest[..n], []);
        Regroup(Number(digits), Numbers(rest[..n], []), Number(part));
      }
    }
  }

  lemma Regroup(a: Version, b: Version, c: Version)
    ensures a + b + c == a + (b + c)
  {
  }

  lemma {:induction false} NumbersJoined(run: string, parts: seq<string>)
    requires Joins(run, parts) && forall i :: 0 <= i < |parts| ==> AllDigits(parts[i])
    ensures Numbers(run, []) == Fits(parts)
    decreases |parts|
  {
    if |parts| == 1 {
      NumbersOfDigits(run, []);
      assert run + [] == run && parts[1..] == [];
    } else {
      var c, rest :| (c == '.' || c == 'p') && run == parts[0] + [c] + rest && Joins(rest, parts[1..]);
      NumbersSplit(parts[0], c, rest, []);
      forall i | 0 <= i < |parts[1..]| ensures AllDigits(parts[1..][i]) { assert parts[1..][i] == parts[i + 1]; }
      NumbersJoined(rest, parts[1..]);
    }
  }

  /** How a name is read: its version is the numbers of its first run of digits, dots and `p`s between them; what stands
      before and after is its family. A run that is a parameter size is no version, nor is one with no number that
      fits. */
  lemma VersionLaw(prefix: string, run: string, parts: seq<string>, suffix: string)
    requires Joins(run, parts) && forall i :: 0 <= i < |parts| ==> AllDigits(parts[i])
    requires forall k :: 0 <= k < |prefix| ==> !IsDigit(prefix[k])
    requires suffix == "" || !('0' <= suffix[0] <= '9')
    requires |suffix| > 1 && (suffix[0] == '.' || suffix[0] == 'p') ==> !('0' <= suffix[1] <= '9')
    ensures var sized := suffix != "" && suffix[0] in {'b', 'm', 'k'}
                         && (|suffix| == 1 || !('0' <= suffix[1] <= '9' || 'a' <= suffix[1] <= 'z'
                                                || 'A' <= suffix[1] <= 'Z'));
      SplitVersion(prefix + run + suffix) ==
        if sized || Fits(parts) == [] then None else Some((Family(prefix, suffix), Fits(parts)))
  {
    var s := prefix + run + suffix;
    var start, end := |prefix|, |prefix + run|;
    JoinsDigits(run, parts);
    RunStands(prefix, run, suffix);
    assert s[..start] == prefix && s[start..end] == run && s[end..] == suffix;
    NumbersJoined(run, parts);
  }

  lemma RunStands(prefix: string, run: string, suffix: string)
    requires run != "" && IsDigit(run[0]) && forall i :: 0 <= i < |run| ==> Extends(run, i)
    requires forall k :: 0 <= k < |prefix| ==> !IsDigit(prefix[k])
    requires suffix == "" || !('0' <= suffix[0] <= '9')
    requires |suffix| > 1 && (suffix[0] == '.' || suffix[0] == 'p') ==> !('0' <= suffix[1] <= '9')
    ensures var s := prefix + run + suffix;
      && FirstDigit(s) == |prefix| < |s| && RunEnd(s, |prefix|) == |prefix + run|
      && (SizeAt(s, |prefix + run|) <==> SizeAt(suffix, 0))
  {
    var s := prefix + run + suffix;
    var start, end := |prefix|, |prefix + run|;
    assert s[start] == run[0];
    FirstDigitIs(s, start);
    forall k | start <= k < end ensures Extends(s, k) {
      assert Extends(run, k - start) && s[k] == run[k - start];
      if k + 1 < end { assert s[k + 1] == run[k + 1 - start]; }
    }
    if suffix != "" { assert s[end] == suffix[0]; }
    if |suffix| > 1 { assert s[end + 1] == suffix[1]; }
    RunEndIs(s, start, end);
  }

  lemma {:induction false} RunEndIs(s: string, i: nat, end: nat)
    requires i <= end && !Extends(s, end) && forall k :: i <= k < end ==> Extends(s, k)
    ensures RunEnd(s, i) == end
    decreases end - i
  {
    if i < end { RunEndIs(s, i + 1, end); }
  }

  /** And a name without a digit has none. */
  lemma NoDigitNoVersion(bare: string)
    requires forall k :: 0 <= k < |bare| ==> !('0' <= bare[k] <= '9')
    ensures SplitVersion(bare).None?
  {
    FirstDigitIs(bare, |bare|);
  }

  /** A parameter size is never taken for a version. */
  lemma SizeIsNoVersion(prefix: string, digits: string, unit: char)
    requires (forall k :: 0 <= k < |prefix| ==> !IsDigit(prefix[k])) && AllDigits(digits) && digits != []
    requires unit == 'b' || unit == 'm' || unit == 'k'
    ensures SplitVersion(prefix + digits + [unit]).None?
  {
    var s := prefix + digits + [unit];
    FirstDigitIs(s, |prefix|);
    var end := RunEnd(s, |prefix|);
    assert s[|s| - 1] == unit;
    assert !Extends(s, |s| - 1);
    forall k | |prefix| <= k < |s| - 1 ensures Extends(s, k) {
      assert s[k] == digits[k - |prefix|];
    }
    assert end == |s| - 1;
  }
}
