/**
 lvl_hint: a coarse CEFR level derived from the number of whitespace-separated
 tokens of the learner's text, as Python's `len(text.split())` counts them.
 */
module Level {

  /** The characters Python's argument-less str.split() treats as separators. */
  predicate IsSpace(c: char)
  {
    var n := c as int;
    n == 0x20 || (0x09 <= n <= 0x0D) || (0x1C <= n <= 0x1F) || n == 0x85 || n == 0xA0 ||
    n == 0x1680 || (0x2000 <= n <= 0x200A) || n == 0x2028 || n == 0x2029 ||
    n == 0x202F || n == 0x205F || n == 0x3000
  }

  /** No character of `w` is a separator. */
  predicate NoSpace(w: string)
  {
    forall i :: 0 <= i < |w| ==> !IsSpace(w[i])
  }

  /** The end of the run of non-separators that starts at `i`. */
  function WordEnd(s: string, i: nat): (r: nat)
    requires i <= |s|
    ensures i <= r <= |s|
    ensures forall j :: i <= j < r ==> !IsSpace(s[j])
    ensures r == |s| || IsSpace(s[r])
    decreases |s| - i
  {
    if i == |s| || IsSpace(s[i]) then i else WordEnd(s, i + 1)
  }

  /** text.split(): the maximal runs of non-separators, in order. */
  function Words(s: string): (r: seq<string>)
    ensures forall k :: 0 <= k < |r| ==> r[k] != [] && NoSpace(r[k])
    decreases |s|
  {
    if s == [] then []
    else if IsSpace(s[0]) then Words(s[1..])
    else
      var k := WordEnd(s, 0);
      [s[..k]] + Words(s[k..])
  }

  /** The tokens joined by single blanks: the partner of Words. */
  function Join(ws: seq<string>): string
  {
    if ws == [] then ""
    else if |ws| == 1 then ws[0]
    else ws[0] + " " + Join(ws[1..])
  }

  /** lvl_hint: "A1" below 8 tokens, "A2" below 18, "B1" from 18 on. */
  function LevelHint(text: string): (level: string)
    ensures level in {"A1", "A2", "B1"}
  {
    var n := |Words(text)|;
    if n < 8 then "A1" else if n < 18 then "A2" else "B1"
  }

  /** The rank of a level on the A1 < A2 < B1 scale. */
  function Rank(level: string): int
  {
    if level == "A1" then 0 else if level == "A2" then 1 else 2
  }

  // ---------------------------------------------------------------------

  /** A separator splits the text: the words on each side, one after the other. */
  lemma {:induction false} WordsAroundSpace(a: string, c: char, b: string)
    requires IsSpace(c)
    ensures Words(a + [c] + b) == Words(a) + Words(b)
    decreases |a|
  {
    var s := a + [c] + b;
    if a == [] {
      assert s[1..] == b;
    } else if IsSpace(a[0]) {
      assert s[1..] == a[1..] + [c] + b;
      WordsAroundSpace(a[1..], c, b);
    } else {
      var ka := WordEnd(a, 0);
      WordEndPrefix(a, c, b, 0);
      assert s[..ka] == a[..ka];
      assert s[ka..] == a[ka..] + [c] + b;
      WordsAroundSpace(a[ka..], c, b);
    }
  }

  /** The end of a word inside `a` is the same when a separator and more text follow `a`. */
  lemma {:induction false} WordEndPrefix(a: string, c: char, b: string, i: nat)
    requires IsSpace(c) && i <= |a|
    ensures WordEnd(a + [c] + b, i) == WordEnd(a, i)
    decreases |a| - i
  {
    var s := a + [c] + b;
    if i == |a| {
      assert s[i] == c;
    } else {
      assert s[i] == a[i];
      if !IsSpace(a[i]) {
        WordEndPrefix(a, c, b, i + 1);
      }
    }
  }

  /** A non-empty text without separators is a single word. */
  lemma SingleWord(w: string)
    requires w != [] && NoSpace(w)
    ensures Words(w) == [w]
  {
    assert WordEnd(w, 0) == |w|;
    assert w[..|w|] == w;
    assert w[|w|..] == [];
  }

  /** Splitting words joined by blanks gives the words back. */
  lemma {:induction false} WordsOfJoin(ws: seq<string>)
    requires forall k :: 0 <= k < |ws| ==> ws[k] != [] && NoSpace(ws[k])
    ensures Words(Join(ws)) == ws
    decreases |ws|
  {
    if ws == [] {
    } else if |ws| == 1 {
      SingleWord(ws[0]);
    } else {
      SingleWord(ws[0]);
      WordsOfJoin(ws[1..]);
      assert Join(ws) == ws[0] + [' '] + Join(ws[1..]);
      WordsAroundSpace(ws[0], ' ', Join(ws[1..]));
      assert ws == [ws[0]] + ws[1..];
    }
  }

  /** The level of a sentence of `|ws|` words, with the thresholds 8 and 18. */
  lemma LevelOfSentence(ws: seq<string>)
    requires forall k :: 0 <= k < |ws| ==> ws[k] != [] && NoSpace(ws[k])
    ensures LevelHint(Join(ws)) == "A1" <==> |ws| < 8
    ensures LevelHint(Join(ws)) == "A2" <==> 8 <= |ws| < 18
    ensures LevelHint(Join(ws)) == "B1" <==> 18 <= |ws|
  {
    WordsOfJoin(ws);
  }

  /** Text with no word in it, the empty string included, is level "A1". */
  lemma BlankIsA1(s: string)
    requires forall i :: 0 <= i < |s| ==> IsSpace(s[i])
    ensures Words(s) == []
    ensures LevelHint(s) == "A1"
  {
    if s != [] {
      assert forall i :: 0 <= i < |s[1..]| ==> IsSpace(s[1..][i]);
      BlankIsA1(s[1..]);
    }
  }

  /** Writing more after a blank never lowers the level. */
  lemma LevelMonotone(a: string, b: string)
    ensures Rank(LevelHint(a)) <= Rank(LevelHint(a + " " + b))
  {
    WordsAroundSpace(a, ' ', b);
    assert a + " " + b == a + [' '] + b;
  }

  /** The empty text and a one-word greeting are level "A1". */
  lemma ShortTextsAreA1()
    ensures LevelHint("") == "A1"
    ensures LevelHint("Salut") == "A1"
  {
    SingleWord("Salut");
  }
}
