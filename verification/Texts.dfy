/** Characters and texts: digits, white space, case. Letters are ASCII. */
module Texts {
  predicate IsDigit(c: char) {
    '0' <= c <= '9'
  }

  predicate AllDigits(s: string) {
    forall i :: 0 <= i < |s| ==> IsDigit(s[i])
  }

  /** White space as Unicode has it. */
  predicate IsSpace(c: char) {
    var n := c as int;
    (9 <= n <= 13) || n == 32 || n == 0x85 || n == 0xA0 || n == 0x1680 || (0x2000 <= n <= 0x200A)
    || n == 0x2028 || n == 0x2029 || n == 0x202F || n == 0x205F || n == 0x3000
  }

  function TrimStart(s: string): string {
    if s != [] && IsSpace(s[0]) then TrimStart(s[1..]) else s
  }

  function TrimEnd(s: string): string {
    if s != [] && IsSpace(s[|s| - 1]) then TrimEnd(s[..|s| - 1]) else s
  }

  function Trim(s: string): string {
    TrimEnd(TrimStart(s))
  }

  /** Of these and no other code points. */
  ghost predicate Blank(s: string) {
    forall i :: 0 <= i < |s| ==>
      s[i] as int in {9, 10, 11, 12, 13, 32, 0x85, 0xA0, 0x1680, 0x2000, 0x2001, 0x2002, 0x2003, 0x2004, 0x2005,
                      0x2006, 0x2007, 0x2008, 0x2009, 0x200A, 0x2028, 0x2029, 0x202F, 0x205F, 0x3000}
  }

  lemma SpaceIs(c: char)
    ensures IsSpace(c) <==> Blank([c])
  {
    var n := c as int;
    assert [c][0] == c;
    if 0x2000 <= n <= 0x200A {
      assert n == 0x2000 || n == 0x2001 || n == 0x2002 || n == 0x2003 || n == 0x2004 || n == 0x2005 || n == 0x2006
        || n == 0x2007 || n == 0x2008 || n == 0x2009 || n == 0x200A;
    }
  }

  lemma {:induction false} TrimStartLaw(s: string) returns (lead: string)
    ensures s == lead + TrimStart(s) && Blank(lead)
    ensures TrimStart(s) != [] ==> !Blank([TrimStart(s)[0]])
  {
    lead := [];
    if s != [] {
      SpaceIs(s[0]);
      if IsSpace(s[0]) {
        var rest := TrimStartLaw(s[1..]);
        lead := [s[0]] + rest;
        assert [s[0]][0] == s[0] && s == [s[0]] + s[1..];
      }
    }
  }

  lemma {:induction false} TrimEndLaw(s: string) returns (tail: string)
    ensures s == TrimEnd(s) + tail && Blank(tail)
    ensures TrimEnd(s) != [] ==> TrimEnd(s)[0] == s[0] && !Blank([TrimEnd(s)[|TrimEnd(s)| - 1]])
  {
    tail := [];
    if s != [] {
      var last := s[|s| - 1];
      SpaceIs(last);
      if IsSpace(last) {
        var rest := TrimEndLaw(s[..|s| - 1]);
        tail := rest + [last];
        assert [last][0] == last && s == s[..|s| - 1] + [last];
      }
    }
  }

  /** Trimming takes off white space at both ends, and all of it. */
  lemma TrimLaw(s: string) returns (lead: string, tail: string)
    ensures s == lead + Trim(s) + tail && Blank(lead) && Blank(tail)
    ensures Trim(s) != [] ==> !Blank([Trim(s)[0]]) && !Blank([Trim(s)[|Trim(s)| - 1]])
  {
    lead := TrimStartLaw(s);
    tail := TrimEndLaw(TrimStart(s));
    assert lead + (Trim(s) + tail) == lead + Trim(s) + tail;
  }

  function ToLower(c: char): char {
    if 'A' <= c <= 'Z' then (c as int + 32) as char else c
  }

  function ToUpper(c: char): char {
    if 'a' <= c <= 'z' then (c as int - 32) as char else c
  }

  function Lowered(s: string): (r: string)
    ensures |r| == |s| && forall i :: 0 <= i < |s| ==> r[i] == ToLower(s[i])
  {
    seq(|s|, i requires 0 <= i < |s| => ToLower(s[i]))
  }
}
