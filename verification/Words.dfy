/**
 * String handling the two languages share: trimming, splitting, joining, collapsing white space and
 * lower-casing, on ASCII text. A class of characters is a predicate.
 */
module Words {

  type Class = char -> bool

  ghost predicate Agree(p: Class, q: Class, s: string) { forall c | c in s :: p(c) == q(c) }

  // ----- trimming -----

  function TrimStart(s: string, space: Class): (t: string)
    ensures t != "" ==> !space(t[0])
    ensures forall c | c in t :: c in s
  {
    if s != "" && space(s[0]) then TrimStart(s[1..], space) else s
  }

  function TrimEnd(s: string, space: Class): (t: string)
    ensures t != "" ==> !space(t[|t| - 1]) && s != "" && t[0] == s[0]
    ensures forall c | c in t :: c in s
  {
    if s != "" && space(s[|s| - 1]) then TrimEnd(s[..|s| - 1], space) else s
  }

  function Trim(s: string, space: Class): (t: string)
    ensures t != "" ==> !space(t[0]) && !space(t[|t| - 1])
    ensures forall c | c in t :: c in s
  {
    TrimEnd(TrimStart(s, space), space)
  }

  predicate Trimmed(s: string, space: Class) { s != "" ==> !space(s[0]) && !space(s[|s| - 1]) }

  lemma {:induction false} TrimAgrees(s: string, p: Class, q: Class)
    requires Agree(p, q, s)
    ensures Trim(s, p) == Trim(s, q)
  {
    StartAgrees(s, p, q);
    EndAgrees(TrimStart(s, p), p, q);
  }

  lemma {:induction false} StartAgrees(s: string, p: Class, q: Class)
    requires Agree(p, q, s)
    ensures TrimStart(s, p) == TrimStart(s, q)
  {
    if s != "" { StartAgrees(s[1..], p, q); }
  }

  lemma {:induction false} EndAgrees(s: string, p: Class, q: Class)
    requires Agree(p, q, s)
    ensures TrimEnd(s, p) == TrimEnd(s, q)
  {
    if s != "" { EndAgrees(s[..|s| - 1], p, q); }
  }

  // ----- words -----

  // Python's `split()`: the maximal runs without white space.
  function SplitWords(s: string, space: Class): (words: seq<string>)
    ensures s != "" && !space(s[0]) ==> words != []
  {
    if s == "" then []
    else if space(s[0]) then SplitWords(s[1..], space)
    else if |s| == 1 || space(s[1]) then [[s[0]]] + SplitWords(s[1..], space)
    else var rest := SplitWords(s[1..], space); [[s[0]] + rest[0]] + rest[1..]
  }

  function JoinWords(words: seq<string>): string {
    if words == [] then ""
    else if |words| == 1 then words[0]
    else words[0] + " " + JoinWords(words[1..])
  }

  // JavaScript's `replace(/\s+/gu, ' ')`.
  function Collapse(s: string, space: Class): string {
    if s == "" then ""
    else if !space(s[0]) then [s[0]] + Collapse(s[1..], space)
    else if |s| > 1 && space(s[1]) then Collapse(s[1..], space)
    else " " + Collapse(s[1..], space)
  }

  ghost predicate IsWord(w: string, space: Class) { w != "" && forall c | c in w :: !space(c) }

  lemma {:induction false} WordsAreWords(s: string, space: Class)
    ensures forall w | w in SplitWords(s, space) :: IsWord(w, space) && forall c | c in w :: c in s
  {
    if s != "" {
      WordsAreWords(s[1..], space);
      assert forall c | c in s[1..] :: c in s;
      var rest := SplitWords(s[1..], space);
      if !space(s[0]) && |s| > 1 && !space(s[1]) {
        assert rest[0] in rest && forall w | w in rest[1..] :: w in rest;
      }
    }
  }

  lemma {:induction false} WordsAgree(s: string, p: Class, q: Class)
    requires Agree(p, q, s)
    ensures SplitWords(s, p) == SplitWords(s, q)
  {
    if s != "" { WordsAgree(s[1..], p, q); }
  }

  // Collapsing a text that does not end in white space joins its words.
  lemma {:induction false} CollapseJoinsWords(s: string, space: Class)
    requires s != "" ==> !space(s[|s| - 1])
    ensures s != "" ==> SplitWords(s, space) != []
    ensures Collapse(s, space) == (if s != "" && space(s[0]) then " " else "") + JoinWords(SplitWords(s, space))
  {
    if |s| > 1 {
      CollapseJoinsWords(s[1..], space);
      var words, rest := SplitWords(s, space), SplitWords(s[1..], space);
      if !space(s[0]) {
        if space(s[1]) {
          assert words[1..] == rest;
        } else if |rest| > 1 {
          assert words[1..] == rest[1..];
          assert JoinWords(words) == [s[0]] + JoinWords(rest);
        }
      }
    } else if |s| == 1 {
      assert s[1..] == "" && Collapse("", space) == "" && s == [s[0]];
    }
  }

  lemma {:induction false} WordsIgnoreEnd(s: string, c: char, space: Class)
    requires space(c)
    ensures SplitWords(s + [c], space) == SplitWords(s, space)
  {
    if s != "" {
      WordsIgnoreEnd(s[1..], c, space);
      assert (s + [c])[1..] == s[1..] + [c];
    } else {
      assert (s + [c])[1..] == "";
    }
  }

  lemma {:induction false} WordsIgnoreTrim(s: string, space: Class)
    ensures SplitWords(Trim(s, space), space) == SplitWords(s, space)
  {
    WordsIgnoreStart(s, space);
    WordsIgnoreTail(TrimStart(s, space), space);
  }

  lemma {:induction false} WordsIgnoreStart(s: string, space: Class)
    ensures SplitWords(TrimStart(s, space), space) == SplitWords(s, space)
  {
    if s != "" && space(s[0]) { WordsIgnoreStart(s[1..], space); }
  }

  lemma {:induction false} WordsIgnoreTail(s: string, space: Class)
    ensures SplitWords(TrimEnd(s, space), space) == SplitWords(s, space)
  {
    if s != "" && space(s[|s| - 1]) {
      WordsIgnoreTail(s[..|s| - 1], space);
      WordsIgnoreEnd(s[..|s| - 1], s[|s| - 1], space);
      assert s == s[..|s| - 1] + [s[|s| - 1]];
    }
  }

  // The client's and the server's ways of normalising white space agree.
  lemma CollapseIsJoin(s: string, space: Class)
    ensures Collapse(Trim(s, space), space) == JoinWords(SplitWords(s, space))
  {
    CollapseJoinsWords(Trim(s, space), space);
    WordsIgnoreTrim(s, space);
  }

  // Splitting gives back the words that were joined.
  lemma {:induction false} SplitJoin(words: seq<string>, space: Class)
    requires space(' ') && forall w | w in words :: IsWord(w, space)
    ensures SplitWords(JoinWords(words), space) == words
  {
    if words != [] {
      assert words[0] in words;
      if |words| == 1 {
        FirstWord(words[0], "", space);
        assert words[0] + "" == words[0];
      } else {
        SplitJoin(words[1..], space);
        FirstWord(words[0], " " + JoinWords(words[1..]), space);
        assert words[0] + (" " + JoinWords(words[1..])) == JoinWords(words);
        assert (" " + JoinWords(words[1..]))[1..] == JoinWords(words[1..]);
      }
    }
  }

  lemma {:induction false} FirstWord(w: string, rest: string, space: Class)
    requires IsWord(w, space) && (rest != "" ==> space(rest[0]))
    ensures SplitWords(w + rest, space) == [w] + SplitWords(rest, space)
  {
    if |w| == 1 {
      assert w[0] in w && (w + rest)[1..] == rest && w == [w[0]];
    } else {
      FirstWord(w[1..], rest, space);
      assert (w + rest)[1..] == w[1..] + rest;
      assert w == [w[0]] + w[1..] && !space(w[0]) && !space(w[1]);
    }
  }

  // ----- splitting at a character -----

  function SplitOn(s: string, c: char): (parts: seq<string>)
    ensures parts != []
  {
    if s == "" then [""]
    else
      var rest := SplitOn(s[1..], c);
      if s[0] == c then [""] + rest else [[s[0]] + rest[0]] + rest[1..]
  }

  function JoinOn(parts: seq<string>, c: char): string
    requires parts != []
  {
    if |parts| == 1 then parts[0] else parts[0] + [c] + JoinOn(parts[1..], c)
  }

  function Count(s: string, c: char): nat {
    if s == "" then 0 else (if s[0] == c then 1 else 0) + Count(s[1..], c)
  }

  // Python's `split(c, 1)`.
  function Before(s: string, c: char): string {
    if s == "" || s[0] == c then "" else [s[0]] + Before(s[1..], c)
  }

  function After(s: string, c: char): string {
    if s == "" then "" else if s[0] == c then s[1..] else After(s[1..], c)
  }

  lemma {:induction false} SplitOnMeaning(s: string, c: char)
    ensures JoinOn(SplitOn(s, c), c) == s
    ensures forall p | p in SplitOn(s, c) :: c !in p
  {
    if s != "" {
      SplitOnMeaning(s[1..], c);
      var rest := SplitOn(s[1..], c);
      assert s == [s[0]] + s[1..];
      assert ([""] + rest)[1..] == rest && ([[s[0]] + rest[0]] + rest[1..])[1..] == rest[1..];
    }
  }

  lemma {:induction false} SplitOnJoin(parts: seq<string>, c: char)
    requires parts != [] && forall p | p in parts :: c !in p
    ensures SplitOn(JoinOn(parts, c), c) == parts
  {
    if |parts| == 1 {
      OnePart(parts[0], c);
    } else {
      SplitOnJoin(parts[1..], c);
      FirstPart(parts[0], JoinOn(parts[1..], c), c);
    }
  }

  lemma {:induction false} OnePart(s: string, c: char)
    requires c !in s
    ensures SplitOn(s, c) == [s]
  {
    if s != "" {
      OnePart(s[1..], c);
      assert s == [s[0]] + s[1..];
    }
  }

  lemma {:induction false} FirstPart(p: string, rest: string, c: char)
    requires c !in p
    ensures SplitOn(p + [c] + rest, c) == [p] + SplitOn(rest, c)
  {
    if p != "" {
      FirstPart(p[1..], rest, c);
      assert (p + [c] + rest)[1..] == p[1..] + [c] + rest;
      assert p == [p[0]] + p[1..];
    } else {
      assert (p + [c] + rest)[1..] == rest;
    }
  }

  // One separator: both languages see the same two parts.
  lemma {:induction false} TwoParts(s: string, c: char)
    ensures |SplitOn(s, c)| == Count(s, c) + 1
    ensures Count(s, c) == 0 ==> SplitOn(s, c) == [s]
    ensures Count(s, c) == 1 ==> SplitOn(s, c) == [Before(s, c), After(s, c)]
  {
    if s != "" {
      TwoParts(s[1..], c);
      assert s == [s[0]] + s[1..];
    }
  }

  // ----- letter case -----

  predicate Upper(c: char) { 'A' <= c <= 'Z' }

  function LowerChar(c: char): char { if Upper(c) then c + 32 as char else c }

  function UpperChar(c: char): char { if 'a' <= c <= 'z' then c - 32 as char else c }

  function Lower(s: string): (t: string)
    ensures |t| == |s| && forall i | 0 <= i < |s| :: t[i] == LowerChar(s[i])
  {
    seq(|s|, i requires 0 <= i < |s| => LowerChar(s[i]))
  }

  function LowerAll(parts: seq<string>): (r: seq<string>)
    ensures |r| == |parts| && forall i | 0 <= i < |parts| :: r[i] == Lower(parts[i])
  {
    seq(|parts|, i requires 0 <= i < |parts| => Lower(parts[i]))
  }

  lemma LowerTwice(s: string)
    ensures Lower(Lower(s)) == Lower(s)
  {
  }

  ghost predicate CaseBlind(p: Class) { forall c: char :: p(c) == p(LowerChar(c)) }

  lemma {:induction false} LowerSplits(s: string, c: char)
    requires !Upper(c) && !('a' <= c <= 'z')
    ensures SplitOn(Lower(s), c) == LowerAll(SplitOn(s, c))
  {
    if s != "" {
      LowerSplits(s[1..], c);
      assert Lower(s)[1..] == Lower(s[1..]);
      var rest := SplitOn(s[1..], c);
      assert Lower([s[0]] + rest[0]) == [LowerChar(s[0])] + Lower(rest[0]);
    } else {
      assert Lower(s) == "";
    }
  }

  lemma LowerKeepsTrimmed(s: string, space: Class)
    requires Trimmed(s, space) && CaseBlind(space)
    ensures Trimmed(Lower(s), space)
  {
  }
}
