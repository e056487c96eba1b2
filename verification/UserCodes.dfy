/** The short code a person types: how it is drawn, and how what they type is read back. */
module UserCodes {
  import opened Sequences
  import opened Texts
  import opened Wrappers

  /** No vowels and no lookalikes. */
  const ALPHABET := "BCDFGHJKMPQRSTVWXZ23456789"
  const CHARS := 8
  const GROUP := 4

  /** The largest multiple of the alphabet's length within a byte. */
  const FAIR := 234

  predicate InAlphabet(c: char) {
    '2' <= c <= '9' || 'B' <= c <= 'D' || 'F' <= c <= 'H' || c == 'J' || c == 'K' || c == 'M' || 'P' <= c <= 'T'
        || 'V' <= c <= 'X' || c == 'Z'
  }

  lemma AlphabetIs(c: char)
    ensures InAlphabet(c) <==> c in ALPHABET
  {
    assert ALPHABET == ['B', 'C', 'D', 'F', 'G', 'H', 'J', 'K', 'M', 'P', 'Q', 'R', 'S', 'T', 'V', 'W', 'X', 'Z', '2',
                        '3', '4', '5', '6', '7', '8', '9'];
  }

  /** A digit or capital letter that is neither a vowel nor looks like another. */
  ghost predicate Plain(c: char) {
    ('0' <= c <= '9' || 'A' <= c <= 'Z') && c !in {'0', '1', 'O', 'I', 'L', 'A', 'E', 'U', 'Y', 'N'}
  }

  /** The alphabet is all of those, each once. */
  lemma AlphabetIsPlainText(c: char)
    ensures c in ALPHABET <==> Plain(c)
    ensures |ALPHABET| == 26 && forall i, j :: 0 <= i < j < 26 ==> ALPHABET[i] != ALPHABET[j]
  {
    AlphabetIs(c);
  }

  /** `XXXX-XXXX` over the alphabet. */
  predicate IsUserCode(code: string) {
    |code| == CHARS + 1 && code[GROUP] == '-' && forall i :: 0 <= i < |code| && i != GROUP ==> InAlphabet(code[i])
  }

  // ---------------------------------------------------------------- drawing one

  /** The characters the draws give, one for every byte below the fair limit. */
  function Drawn(draws: seq<nat>): string {
    if draws == [] then []
    else
      var last := draws[|draws| - 1];
      Drawn(draws[..|draws| - 1]) + (if last < FAIR then [ALPHABET[last % 26]] else [])
  }

  /** The places of the bytes below 234, in order. */
  ghost predicate Picked(draws: seq<nat>, picks: seq<nat>) {
    && (forall k :: 0 <= k < |picks| ==> picks[k] < |draws| && draws[picks[k]] < 234)
    && (forall j, k :: 0 <= j < k < |picks| ==> picks[j] < picks[k])
    && forall i :: 0 <= i < |draws| && draws[i] < 234 ==> i in picks
  }

  lemma PickedPush(draws: seq<nat>, picks: seq<nat>, next: nat)
    requires Picked(draws, picks)
    ensures Picked(draws + [next], if next < 234 then picks + [|draws|] else picks)
  {
    var longer := draws + [next];
    var picks' := if next < 234 then picks + [|draws|] else picks;
    forall i | 0 <= i < |longer| && longer[i] < 234 ensures i in picks' {
      if i < |draws| {
        assert draws[i] < 234 && i in picks;
      } else {
        assert picks'[|picks|] == i;
      }
    }
  }

  ghost predicate Letters(draws: seq<nat>, picks: seq<nat>, letters: string) {
    |picks| == |letters|
    && forall k :: 0 <= k < |picks| ==> picks[k] < |draws| && letters[k] == ALPHABET[draws[picks[k]] % 26]
  }

  lemma LettersPush(draws: seq<nat>, picks: seq<nat>, letters: string, next: nat)
    requires Letters(draws, picks, letters)
    ensures Letters(draws + [next], picks, letters)
    ensures Letters(draws + [next], picks + [|draws|], letters + [ALPHABET[next % 26]])
  {
  }

  lemma DrawnPush(draws: seq<nat>, next: nat)
    ensures Drawn(draws + [next]) == if next < 234 then Drawn(draws) + [ALPHABET[next % 26]] else Drawn(draws)
  {
    assert (draws + [next])[..|draws|] == draws && Drawn(draws) + [] == Drawn(draws);
  }

  lemma PicksPush(draws: seq<nat>, front: seq<nat>, next: nat) returns (picks: seq<nat>)
    requires Picked(draws, front) && Letters(draws, front, Drawn(draws))
    ensures Picked(draws + [next], picks) && Letters(draws + [next], picks, Drawn(draws + [next]))
  {
    picks := if next < FAIR then front + [|draws|] else front;
    PickedPush(draws, front, next);
    LettersPush(draws, front, Drawn(draws), next);
    DrawnPush(draws, next);
  }

  /** The letters drawn are those of these bytes and no other. */
  lemma {:induction false} PicksOf(draws: seq<nat>) returns (picks: seq<nat>)
    ensures Picked(draws, picks) && Letters(draws, picks, Drawn(draws))
  {
    picks := [];
    if draws != [] {
      var n := |draws| - 1;
      assert draws[..n] + [draws[n]] == draws;
      var front := PicksOf(draws[..n]);
      picks := PicksPush(draws[..n], front, draws[n]);
    }
  }

  function Grouped(chars: string): string {
    if |chars| < GROUP then chars else chars[..GROUP] + ['-'] + chars[GROUP..]
  }

  /** Four letters, a dash, and four more, those of the eight bytes picked. */
  ghost predicate Writes(draws: seq<nat>, picks: seq<nat>, code: string) {
    && |picks| == 8 && |code| == 9 && Picked(draws, picks) && code[4] == '-'
    && (forall k :: 0 <= k < 4 ==> code[k] == ALPHABET[draws[picks[k]] % 26])
    && (forall k :: 4 <= k < 8 ==> code[k + 1] == ALPHABET[draws[picks[k]] % 26])
  }

  lemma GroupedWrites(draws: seq<nat>) returns (picks: seq<nat>)
    requires |Drawn(draws)| == CHARS
    ensures Writes(draws, picks, Grouped(Drawn(draws)))
  {
    picks := PicksOf(draws);
  }

  lemma Letter(k: nat)
    requires k < 26
    ensures InAlphabet(ALPHABET[k])
  {
    AlphabetIs(ALPHABET[k]);
  }

  lemma {:induction false} DrawnInAlphabet(draws: seq<nat>)
    ensures forall i :: 0 <= i < |Drawn(draws)| ==> InAlphabet(Drawn(draws)[i])
  {
    if draws == [] {
    } else {
      DrawnInAlphabet(draws[..|draws| - 1]);
      Letter(draws[|draws| - 1] % 26);
    }
  }

  lemma DrawnNext(draws: seq<nat>, n: nat)
    requires n < |draws|
    ensures Drawn(draws[..n + 1]) == Drawn(draws[..n]) + (if draws[n] < FAIR then [ALPHABET[draws[n] % 26]] else [])
  {
    assert draws[..n + 1][..n] == draws[..n];
  }

  /** The sampling loop over a supply of random bytes: bytes in the unfair tail are discarded. It needs as many
      bytes as it takes to accept eight; `None` says the supply ran out first. */
  method GenerateUserCode(draws: seq<nat>) returns (code: Option<string>, taken: nat, ghost picks: seq<nat>)
    requires forall i :: 0 <= i < |draws| ==> draws[i] < 256
    ensures taken <= |draws|
    ensures code.Some? <==> |Drawn(draws)| >= CHARS
    ensures code.Some? ==>
        IsUserCode(code.value) && |Drawn(draws[..taken])| == CHARS && code.value == Grouped(Drawn(draws[..taken]))
    ensures code.Some? ==> Writes(draws[..taken], picks, code.value)
    ensures code.None? ==> taken == |draws|
  {
    var text: string := "";
    taken := 0;
    ghost var chars: string := "";
    while |text| < CHARS + 1
      invariant taken <= |draws| && |text| <= CHARS + 1 && chars == Drawn(draws[..taken])
      invariant if |text| <= GROUP then text == chars else |chars| == |text| - 1 && text == Grouped(chars)
      decreases |draws| - taken, CHARS + 1 - |text|
    {
      if |text| == GROUP {
        text := text + ['-'];
        assert chars[..GROUP] == chars && chars[GROUP..] == [];
      } else {
        if taken == |draws| {
          assert draws[..taken] == draws;
          return None, taken, [];
        }
        DrawnNext(draws, taken);
        var byte := draws[taken];
        taken := taken + 1;
        if byte < FAIR {
          var c := ALPHABET[byte % 26];
          GroupedPush(chars, c);
          text := text + [c];
          chars := chars + [c];
        }
      }
    }
    DrawnInAlphabet(draws[..taken]);
    DrawnPrefix(draws, taken);
    picks := GroupedWrites(draws[..taken]);
    code := Some(text);
  }

  lemma GroupedPush(chars: string, c: char)
    ensures |chars| >= GROUP ==> Grouped(chars + [c]) == Grouped(chars) + [c]
  {
  }

  lemma {:induction false} DrawnPrefix(draws: seq<nat>, n: nat)
    requires n <= |draws|
    ensures |Drawn(draws[..n])| <= |Drawn(draws)|
  {
    if n == |draws| {
      assert draws[..n] == draws;
    } else {
      var front := draws[..|draws| - 1];
      DrawnPrefix(front, n);
      assert front[..n] == draws[..n];
    }
  }

  /** How many of the bytes below n are accepted as the k-th letter. */
  function Accepted(n: nat, k: nat): nat {
    if n == 0 then 0 else Accepted(n - 1, k) + (if n - 1 < FAIR && (n - 1) % 26 == k then 1 else 0)
  }

  lemma {:induction false} AcceptedRounds(rounds: nat, rest: nat, k: nat)
    requires rounds <= 9 && rest <= 26 && k < 26 && (rounds == 9 ==> rest == 0)
    ensures Accepted(26 * rounds + rest, k) == rounds + (if k < rest then 1 else 0)
    decreases rounds, rest
  {
    if rest > 0 {
      AcceptedRounds(rounds, rest - 1, k);
      var n := 26 * rounds + rest - 1;
      assert n / 26 == rounds && n % 26 == rest - 1;
    } else if rounds > 0 {
      AcceptedRounds(rounds - 1, 26, k);
    }
  }

  lemma {:induction false} NoneAbove(n: nat, k: nat)
    requires n >= FAIR
    ensures Accepted(n, k) == Accepted(FAIR, k)
  {
    if n > FAIR {
      NoneAbove(n - 1, k);
    }
  }

  /** Every letter is as likely as every other: nine of a byte's 256 values each. */
  lemma Fairness(k: nat)
    requires k < |ALPHABET|
    ensures Accepted(256, k) == 9
  {
    NoneAbove(256, k);
    AcceptedRounds(9, 0, k);
  }

  // ---------------------------------------------------------------- reading one back

  /** What is left of the typed text: no dashes, no spaces, upper case. */
  function Cleaned(s: string): string {
    if s == [] then [] else CleanedChar(s[0]) + Cleaned(s[1..])
  }

  function CleanedChar(c: char): string {
    if c == '-' || c == ' ' then [] else [ToUpper(c)]
  }

  /** Cleaning goes letter by letter: a dash and a space are left out, a small letter is made a capital, anything else
      stays. */
  lemma CleanedLaw(a: string, b: string, c: char)
    ensures Cleaned("") == "" && Cleaned(a + b) == Cleaned(a) + Cleaned(b)
    ensures Cleaned([c]) == if c == '-' || c == ' ' then ""
                            else if 'a' <= c <= 'z' then [(c as int - 32) as char] else [c]
  {
    CleanedConcat(a, b);
    assert [c][1..] == [];
  }

  /** A typed text is read as a code exactly if, trimmed and cleaned, it is eight letters of the alphabet; they are the
      code's. */
  lemma NormalizeLaw(raw: string, code: string)
    ensures NormalizeUserCode(raw) == Some(code) <==>
      var letters := Cleaned(Trim(raw));
      && |letters| == 8 && (forall i :: 0 <= i < 8 ==> Plain(letters[i]))
      && code == letters[..4] + "-" + letters[4..]
  {
    var letters := Cleaned(Trim(raw));
    forall i | 0 <= i < |letters| ensures InAlphabet(letters[i]) <==> Plain(letters[i]) {
      AlphabetIsPlainText(letters[i]);
      AlphabetIs(letters[i]);
    }
  }

  function NormalizeUserCode(raw: string): Option<string> {
    var cleaned := Cleaned(Trim(raw));
    if |cleaned| != CHARS then None
    else if exists i :: 0 <= i < |cleaned| && !InAlphabet(cleaned[i]) then None
    else Some(cleaned[..GROUP] + ['-'] + cleaned[GROUP..])
  }

  lemma AlphabetIsPlain(c: char)
    requires InAlphabet(c)
    ensures c != '-' && c != ' ' && ToUpper(c) == c && ToUpper(ToLower(c)) == c && !IsSpace(c) && !IsSpace(ToLower(c))
  {
  }

  lemma {:induction false} CleanedPlain(s: string)
    requires forall i :: 0 <= i < |s| ==> InAlphabet(s[i])
    ensures Cleaned(s) == s
  {
    if s == [] {
    } else {
      AlphabetIsPlain(s[0]);
      CleanedPlain(s[1..]);
    }
  }

  lemma {:induction false} CleanedConcat(a: string, b: string)
    ensures Cleaned(a + b) == Cleaned(a) + Cleaned(b)
  {
    if a == [] {
      assert a + b == b;
    } else {
      var rest, whole := a[1..], a + b;
      CleanedConcat(rest, b);
      assert whole[0] == a[0] && whole[1..] == rest + b;
      Associates(CleanedChar(a[0]), Cleaned(rest), Cleaned(b));
    }
  }

  /** Whatever is accepted is a well-formed code, and a well-formed code is accepted as it is. */
  lemma NormalizedIsCode(raw: string)
    ensures NormalizeUserCode(raw).Some? ==> IsUserCode(NormalizeUserCode(raw).value)
    ensures IsUserCode(raw) ==> NormalizeUserCode(raw) == Some(raw)
  {
    if IsUserCode(raw) {
      CodeTrims(raw);
      CodeCleans(raw);
      Reassembled(raw, raw[..GROUP], raw[GROUP + 1..]);
    }
  }

  lemma CodeTrims(code: string)
    requires IsUserCode(code)
    ensures Trim(code) == code
  {
    AlphabetIsPlain(code[0]);
    AlphabetIsPlain(code[8]);
  }

  lemma Reassembled(code: string, left: string, right: string)
    requires IsUserCode(code) && left == code[..GROUP] && right == code[GROUP + 1..]
    ensures |left + right| == CHARS && (left + right)[..GROUP] == left && (left + right)[GROUP..] == right
    ensures code == left + ['-'] + right
    ensures forall i :: 0 <= i < CHARS ==> InAlphabet((left + right)[i])
  {
  }

  lemma CleanedDash(right: string)
    ensures Cleaned(['-'] + right) == Cleaned(right)
  {
    assert (['-'] + right)[1..] == right;
  }

  lemma CodeCleans(code: string)
    requires IsUserCode(code)
    ensures Cleaned(code) == code[..GROUP] + code[GROUP + 1..]
  {
    var left, right := code[..GROUP], code[GROUP + 1..];
    assert code == left + (['-'] + right);
    CleanedConcat(left, ['-'] + right);
    CleanedDash(right);
    CleanedPlain(left);
    CleanedPlain(right);
  }

  lemma {:induction false} LoweredCleans(s: string)
    ensures Cleaned(Lowered(s)) == Cleaned(s)
  {
    if s == [] {
    } else {
      LoweredCleans(s[1..]);
      assert Lowered(s)[1..] == Lowered(s[1..]);
    }
  }

  /** The ways people retype a code: any letters in lower case, and a dash or a space put in or left out anywhere
      but at the ends, where spaces are trimmed away. */
  lemma RetypedIsSame(left: string, right: string, gap: char)
    requires gap == '-' || gap == ' '
    ensures Cleaned(left + [gap] + right) == Cleaned(left + right)
    ensures Cleaned(Lowered(left + right)) == Cleaned(left + right)
  {
    CleanedConcat(left + [gap], right);
    CleanedConcat(left, [gap]);
    CleanedConcat(left, right);
    CleanedGap(gap);
    assert Cleaned(left) + [] == Cleaned(left);
    LoweredCleans(left + right);
  }

  lemma CleanedGap(gap: char)
    requires gap == '-' || gap == ' '
    ensures Cleaned([gap]) == []
  {
    assert [gap][1..] == [];
    assert Cleaned([]) == [];
  }

  /** Round trip: a code as the device showed it, and retyped in lower case, both read back as itself. */
  lemma LoweredCode(code: string)
    requires IsUserCode(code)
    ensures NormalizeUserCode(Lowered(code)) == Some(code)
  {
    NormalizedIsCode(code);
    LoweredCleans(code);
    CodeTrims(code);
    AlphabetIsPlain(code[0]);
    AlphabetIsPlain(code[8]);
    assert Trim(Lowered(code)) == Lowered(code);
  }
}
