/** Text handling shared by both agents; characters outside ASCII have no case and are not white space. */
module Text {

  predicate IsSpace(c: char) {
    c == ' ' || '\t' <= c <= '\r'
  }

  function TrimStart(s: string): string {
    if s != [] && IsSpace(s[0]) then TrimStart(s[1..]) else s
  }

  function TrimEnd(s: string): string {
    if s != [] && IsSpace(s[|s| - 1]) then TrimEnd(s[..|s| - 1]) else s
  }

  function Trim(s: string): string {
    TrimEnd(TrimStart(s))
  }

  function LowerChar(c: char): char {
    if 'A' <= c <= 'Z' then c - 'A' + 'a' else c
  }

  function Lower(s: string): string {
    seq(|s|, i requires 0 <= i < |s| => LowerChar(s[i]))
  }

  predicate EqualIgnoringCase(a: string, b: string) {
    Lower(a) == Lower(b)
  }

  predicate AllSpace(s: string) {
    forall i :: 0 <= i < |s| ==> s[i] in {' ', '\t', '\n', '\r', 11 as char, 12 as char}
  }

  /** Trimming takes white space off both ends, all of it and nothing else. */
  lemma TrimTakesOffSpace(s: string) returns (before: string, after: string)
    ensures s == before + Trim(s) + after && AllSpace(before) && AllSpace(after)
    ensures Trim(s) != "" ==> !AllSpace([Trim(s)[0]]) && !AllSpace([Trim(s)[|Trim(s)| - 1]])
  {
    before := StartTakesOffSpace(s);
    after := EndTakesOffSpace(TrimStart(s));
    assert Trim(s) != "" ==> TrimStart(s)[0] == Trim(s)[0];
  }

  lemma {:induction false} StartTakesOffSpace(s: string) returns (before: string)
    ensures s == before + TrimStart(s) && AllSpace(before)
    ensures TrimStart(s) != "" ==> !AllSpace([TrimStart(s)[0]])
  {
    before := "";
    if s != "" && IsSpace(s[0]) {
      var rest := StartTakesOffSpace(s[1..]);
      before := [s[0]] + rest;
    } else if s != "" {
      assert [s[0]][0] == s[0];
    }
  }

  lemma {:induction false} EndTakesOffSpace(s: string) returns (after: string)
    ensures s == TrimEnd(s) + after && AllSpace(after)
    ensures TrimEnd(s) != "" ==> !AllSpace([TrimEnd(s)[|TrimEnd(s)| - 1]])
  {
    after := "";
    if s != "" && IsSpace(s[|s| - 1]) {
      var rest := EndTakesOffSpace(s[..|s| - 1]);
      after := rest + [s[|s| - 1]];
    } else if s != "" {
      assert [s[|s| - 1]][0] == s[|s| - 1];
    }
  }

  predicate CapitalOf(capital: char, small: char) {
    'A' <= capital <= 'Z' && small as int == capital as int + 32
  }

  predicate SameText(a: string, b: string) {
    && |a| == |b|
    && forall i :: 0 <= i < |a| ==> a[i] == b[i] || CapitalOf(a[i], b[i]) || CapitalOf(b[i], a[i])
  }

  /** Nothing is left exactly of white space. */
  lemma {:induction false} EmptyExactlyWhen(s: string)
    ensures Trim(s) == "" <==> AllSpace(s)
  {
    var before, after := TrimTakesOffSpace(s);
    assert Trim(s) != "" ==> s[|before|] == Trim(s)[0];
  }

  /** Two texts are equal but for case exactly when each character is the other's, its capital or its small letter. */
  lemma EqualExactlyWhen(a: string, b: string)
    ensures EqualIgnoringCase(a, b) <==> SameText(a, b)
  {
    assert EqualIgnoringCase(a, b) ==> |Lower(a)| == |Lower(b)|;
    if |a| == |b| {
      forall i | 0 <= i < |a|
        ensures Lower(a)[i] == Lower(b)[i] <==> a[i] == b[i] || CapitalOf(a[i], b[i]) || CapitalOf(b[i], a[i])
      {
      }
    }
  }
}
