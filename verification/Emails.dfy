/**
 * The address syntax both sides test: the local part is the dot-atom-text of section 3.2.3 of RFC
 * 5322, the domain consists of the labels of section 2.1 of RFC 1123.
 */
module Emails {
  import opened Words

  predicate Letter(c: char) { 'a' <= c <= 'z' || 'A' <= c <= 'Z' }

  predicate Digit(c: char) { '0' <= c <= '9' }

  predicate AlphaNumeric(c: char) { Letter(c) || Digit(c) }

  predicate AtomChar(c: char) { AlphaNumeric(c) || c in "!#$%&'*+/=?^_`{|}~-" }

  predicate All(s: string, p: Class) { forall i | 0 <= i < |s| :: p(s[i]) }

  // The pattern of the local part, matched from left to right: `open` inside a run of atom characters.
  predicate MatchesLocal(s: string, open: bool) {
    if s == "" then open
    else if s[0] == '.' then open && MatchesLocal(s[1..], false)
    else AtomChar(s[0]) && MatchesLocal(s[1..], true)
  }

  predicate LocalOk(s: string) { MatchesLocal(s, false) }

  predicate LabelChar(c: char) { AlphaNumeric(c) || c == '-' }

  predicate LabelOk(s: string) {
    s != "" && AlphaNumeric(s[0]) && AlphaNumeric(s[|s| - 1]) && All(s, LabelChar)
  }

  predicate LabelsOk(labels: seq<string>) { forall i | 0 <= i < |labels| :: LabelOk(labels[i]) }

  predicate LabelsShort(labels: seq<string>) { forall i | 0 <= i < |labels| :: |labels[i]| <= 63 }

  predicate Atom(s: string) { s != "" && All(s, AtomChar) }

  // The pattern accepts exactly the texts whose dot-separated parts are non-empty runs of atom
  // characters.
  lemma LocalIsDotAtom(s: string)
    ensures LocalOk(s) <==> forall i | 0 <= i < |SplitOn(s, '.')| :: Atom(SplitOn(s, '.')[i])
  {
    MatchesParts(s, false);
  }

  ghost predicate PartsMatch(parts: seq<string>, open: bool)
    requires parts != []
  {
    (if open then All(parts[0], AtomChar) else Atom(parts[0])) && (forall i | 1 <= i < |parts| :: Atom(parts[i]))
  }

  lemma {:induction false} MatchesParts(s: string, open: bool)
    ensures MatchesLocal(s, open) <==> PartsMatch(SplitOn(s, '.'), open)
  {
    if s != "" {
      MatchesParts(s[1..], s[0] != '.');
      if s[0] == '.' {
        DotFirst(SplitOn(s[1..], '.'), open);
      } else {
        CharFirst(s[0], SplitOn(s[1..], '.'), open);
      }
    }
  }

  lemma DotFirst(rest: seq<string>, open: bool)
    requires rest != []
    ensures PartsMatch([""] + rest, open) <==> open && PartsMatch(rest, false)
  {
    var parts := [""] + rest;
    assert forall i | 0 <= i < |rest| :: parts[i + 1] == rest[i];
  }

  lemma CharFirst(c: char, rest: seq<string>, open: bool)
    requires rest != []
    ensures PartsMatch([[c] + rest[0]] + rest[1..], open) <==> AtomChar(c) && PartsMatch(rest, true)
  {
    var parts := [[c] + rest[0]] + rest[1..];
    assert parts[0] == [c] + rest[0] && forall i | 1 <= i < |rest| :: parts[i] == rest[i];
    AllFirst(c, rest[0]);
  }

  lemma AllFirst(c: char, s: string)
    ensures All([c] + s, AtomChar) <==> AtomChar(c) && All(s, AtomChar)
  {
    var t := [c] + s;
    assert t[0] == c && forall i | 0 <= i < |s| :: t[i + 1] == s[i];
    assert forall j | 1 <= j < |t| :: t[j] == s[j - 1];
  }

  // ----- both sides ignore letter case -----

  lemma AtomCharsAnyCase(c: char)
    ensures AtomChar(LowerChar(c)) == AtomChar(c) && AlphaNumeric(LowerChar(c)) == AlphaNumeric(c)
    ensures LowerChar(c) == '.' <==> c == '.'
    ensures LowerChar(c) == '-' <==> c == '-'
  {
  }

  lemma {:induction false} LowerLocal(s: string, open: bool)
    ensures MatchesLocal(Lower(s), open) == MatchesLocal(s, open)
  {
    if s != "" {
      AtomCharsAnyCase(s[0]);
      assert Lower(s)[1..] == Lower(s[1..]);
      LowerLocal(s[1..], true);
      LowerLocal(s[1..], false);
    }
  }

  lemma LowerLabels(labels: seq<string>)
    ensures LabelsOk(LowerAll(labels)) == LabelsOk(labels) && LabelsShort(LowerAll(labels)) == LabelsShort(labels)
  {
    forall i | 0 <= i < |labels| ensures LabelOk(LowerAll(labels)[i]) == LabelOk(labels[i]) {
      LowerLabel(labels[i]);
    }
    assert forall i | 0 <= i < |labels| :: |LowerAll(labels)[i]| == |labels[i]|;
  }

  lemma LowerLabel(s: string)
    ensures LabelOk(Lower(s)) == LabelOk(s)
  {
    forall c: char ensures AlphaNumeric(LowerChar(c)) == AlphaNumeric(c) && (LowerChar(c) == '-' <==> c == '-') {
      AtomCharsAnyCase(c);
    }
  }
}
