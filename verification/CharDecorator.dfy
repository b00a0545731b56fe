/**
 `fmt_char_decorator`: substring replacements applied one after the other, and when that equals
 replacing every character once. Text is a sequence of unsigned code units of any width.
 */
module CharDecorator {

  type Text = seq<nat>

  datatype Decoration = Decoration(pattern: Text, replacement: Text)

  // `algorithm::replace_all`: every non-overlapping occurrence from the left; an empty pattern is
  // never found.
  function ReplaceAll(s: Text, d: Decoration): Text {
    if d.pattern == [] || |s| < |d.pattern| then s
    else if s[..|d.pattern|] == d.pattern then d.replacement + ReplaceAll(s[|d.pattern|..], d)
    else [s[0]] + ReplaceAll(s[1..], d)
  }

  function ReplaceEach(decorations: seq<Decoration>, s: Text): Text {
    if decorations == [] then s else ReplaceEach(decorations[1..], ReplaceAll(s, decorations[0]))
  }

  // ----- Replacing substrings -----

  predicate OccursAt(s: Text, pattern: Text, i: nat) {
    i + |pattern| <= |s| && s[i..i + |pattern|] == pattern
  }

  function Joined(pieces: seq<Text>, separator: Text): Text
    requires pieces != []
  {
    if |pieces| == 1 then pieces[0] else pieces[0] + separator + Joined(pieces[1..], separator)
  }

  // None of the first `n` positions of the text begins an occurrence.
  predicate NoneBefore(s: Text, pattern: Text, n: nat) {
    forall i :: 0 <= i < n ==> !OccursAt(s, pattern, i)
  }

  // Cut at the occurrences of the pattern, each the first one behind the one before: none begins within a
  // piece, not even one that reaches into the occurrence behind it. At an empty pattern nothing is cut.
  predicate CutAt(pieces: seq<Text>, pattern: Text) {
    && pieces != []
    && (pattern == [] ==> |pieces| == 1)
    && (pattern != [] ==> NoneBefore(if |pieces| > 1 then pieces[0] + pattern else pieces[0], pattern, |pieces[0]|))
    && (|pieces| > 1 ==> CutAt(pieces[1..], pattern))
  }

  // `after` is `before` with the replacement in the place of every occurrence.
  ghost predicate Replaced(before: Text, d: Decoration, after: Text) {
    exists pieces ::
      CutAt(pieces, d.pattern) && Joined(pieces, d.pattern) == before && Joined(pieces, d.replacement) == after
  }

  lemma {:induction false} NoOccurrence(s: Text, d: Decoration)
    requires d.pattern == [] || NoneBefore(s, d.pattern, |s|)
    ensures ReplaceAll(s, d) == s
  {
    if d.pattern == [] || |s| < |d.pattern| {
    } else {
      assert !OccursAt(s, d.pattern, 0);
      forall i | 0 <= i < |s| - 1 ensures !OccursAt(s[1..], d.pattern, i) {
        assert !OccursAt(s, d.pattern, i + 1);
      }
      NoOccurrence(s[1..], d);
    }
  }

  lemma {:induction false} FirstOccurrence(a: Text, d: Decoration, b: Text)
    requires d.pattern != [] && NoneBefore(a + d.pattern + b, d.pattern, |a|)
    ensures ReplaceAll(a + d.pattern + b, d) == a + d.replacement + ReplaceAll(b, d)
  {
    var s := a + d.pattern + b;
    if a == [] {
      assert s[..|d.pattern|] == d.pattern && s[|d.pattern|..] == b;
    } else {
      assert !OccursAt(s, d.pattern, 0);
      assert s[1..] == a[1..] + d.pattern + b;
      forall i | 0 <= i < |a[1..]| ensures !OccursAt(s[1..], d.pattern, i) {
        assert !OccursAt(s, d.pattern, i + 1);
      }
      FirstOccurrence(a[1..], d, b);
      assert [a[0]] + (a[1..] + d.replacement + ReplaceAll(b, d)) == a + d.replacement + ReplaceAll(b, d);
    }
  }

  lemma {:induction false} CutReplaced(pieces: seq<Text>, d: Decoration)
    requires CutAt(pieces, d.pattern)
    ensures ReplaceAll(Joined(pieces, d.pattern), d) == Joined(pieces, d.replacement)
  {
    var a := pieces[0];
    if |pieces| == 1 {
      NoOccurrence(a, d);
    } else {
      var b := Joined(pieces[1..], d.pattern);
      forall i | 0 <= i < |a| ensures !OccursAt(a + d.pattern + b, d.pattern, i) {
        assert (a + d.pattern + b)[i..i + |d.pattern|] == (a + d.pattern)[i..i + |d.pattern|];
        assert !OccursAt(a + d.pattern, d.pattern, i);
      }
      FirstOccurrence(a, d, b);
      CutReplaced(pieces[1..], d);
    }
  }

  lemma {:induction false} CutExists(s: Text, pattern: Text) returns (pieces: seq<Text>)
    ensures CutAt(pieces, pattern) && Joined(pieces, pattern) == s
    decreases |s|
  {
    if pattern == [] || |s| < |pattern| {
      pieces := [s];
    } else if s[..|pattern|] == pattern {
      var rest := CutExists(s[|pattern|..], pattern);
      pieces := [[]] + rest;
      assert pieces[1..] == rest;
    } else {
      var rest := CutExists(s[1..], pattern);
      pieces := Longer(s, pattern, rest);
    }
  }

  // A character in front that begins no occurrence belongs to the first piece.
  lemma Longer(s: Text, pattern: Text, rest: seq<Text>) returns (pieces: seq<Text>)
    requires pattern != [] && |pattern| <= |s| && s[..|pattern|] != pattern
    requires CutAt(rest, pattern) && Joined(rest, pattern) == s[1..]
    ensures CutAt(pieces, pattern) && Joined(pieces, pattern) == s
  {
    var first := [s[0]] + rest[0];
    pieces := [first] + rest[1..];
    assert pieces[1..] == rest[1..];
    var before, now := rest[0], first;
    if |rest| > 1 {
      before, now := rest[0] + pattern, first + pattern;
    }
    assert now == [s[0]] + before && now <= s;
    forall i | 0 <= i < |first| ensures !OccursAt(now, pattern, i) {
      if i > 0 {
        assert now[i..] == before[i - 1..];
        assert !OccursAt(before, pattern, i - 1);
      }
    }
  }

  // `replace_all` does just that.
  lemma ReplaceAllIff(s: Text, d: Decoration, t: Text)
    ensures t == ReplaceAll(s, d) <==> Replaced(s, d, t)
  {
    if Replaced(s, d, t) {
      var pieces :| CutAt(pieces, d.pattern) && Joined(pieces, d.pattern) == s && Joined(pieces, d.replacement) == t;
      CutReplaced(pieces, d);
    }
    var pieces := CutExists(s, d.pattern);
    CutReplaced(pieces, d);
  }

  class FmtCharDecorator {
    var decorations: seq<Decoration>

    // The constructor that pairs two sequences, which have to be of the same size.
    constructor (from: seq<Text>, to: seq<Text>)
      requires |from| == |to|
      ensures |decorations| == |from|
      ensures forall i :: 0 <= i < |from| ==> decorations[i] == Decoration(from[i], to[i])
    {
      var list: seq<Decoration> := [];
      var i := 0;
      while i < |from|
        invariant 0 <= i <= |from| && |list| == i
        invariant forall k :: 0 <= k < i ==> list[k] == Decoration(from[k], to[k])
      {
        list := list + [Decoration(from[i], to[i])];
        i := i + 1;
      }
      decorations := list;
    }

    // What the formatting operator does to the formatted text.
    method Decorate(formatted: Text) returns (storage: Text, ghost stages: seq<Text>)
      ensures storage == ReplaceEach(decorations, formatted)
      ensures |stages| == |decorations| + 1 && stages[0] == formatted && storage == stages[|decorations|]
      ensures forall i :: 0 <= i < |decorations| ==> Replaced(stages[i], decorations[i], stages[i + 1])
    {
      storage, stages := formatted, [formatted];
      var i := 0;
      while i < |decorations|
        invariant 0 <= i <= |decorations| && |stages| == i + 1
        invariant ReplaceEach(decorations[i..], storage) == ReplaceEach(decorations, formatted)
        invariant stages[0] == formatted && stages[i] == storage
        invariant forall k :: 0 <= k < i ==> Replaced(stages[k], decorations[k], stages[k + 1])
      {
        assert decorations[i..][1..] == decorations[i + 1..];
        ReplaceAllIff(storage, decorations[i], ReplaceAll(storage, decorations[i]));
        storage := ReplaceAll(storage, decorations[i]);
        stages := stages + [storage];
        i := i + 1;
      }
    }
  }

  // ----- One-pass substitution -----

  // What a character becomes: the replacement of the first pattern that is this character.
  function Escape(decorations: seq<Decoration>, c: nat): Text {
    if decorations == [] then [c]
    else if decorations[0].pattern == [c] then decorations[0].replacement
    else Escape(decorations[1..], c)
  }

  function OnePass(decorations: seq<Decoration>, s: Text): Text {
    if s == [] then [] else Escape(decorations, s[0]) + OnePass(decorations, s[1..])
  }

  predicate SingleCharacters(decorations: seq<Decoration>) {
    forall i :: 0 <= i < |decorations| ==> |decorations[i].pattern| == 1
  }

  // No pattern occurs in the replacement of an earlier one.
  predicate LaterAbsent(decorations: seq<Decoration>) {
    forall i, j :: 0 <= i < j < |decorations| && |decorations[j].pattern| == 1 ==>
      decorations[j].pattern[0] !in decorations[i].replacement
  }

  lemma {:induction false} OnePassConcat(decorations: seq<Decoration>, a: Text, b: Text)
    ensures OnePass(decorations, a + b) == OnePass(decorations, a) + OnePass(decorations, b)
  {
    if a == [] {
      assert a + b == b;
    } else {
      OnePassConcat(decorations, a[1..], b);
      assert (a + b)[1..] == a[1..] + b;
    }
  }

  lemma {:induction false} EscapeOther(decorations: seq<Decoration>, c: nat)
    requires forall i :: 0 <= i < |decorations| ==> decorations[i].pattern != [c]
    ensures Escape(decorations, c) == [c]
  {
    if decorations == [] {
    } else {
      assert decorations[0].pattern != [c];
      EscapeOther(decorations[1..], c);
    }
  }

  lemma {:induction false} OnePassOther(decorations: seq<Decoration>, s: Text)
    requires forall i :: 0 <= i < |decorations| && |decorations[i].pattern| == 1 ==>
               decorations[i].pattern[0] !in s
    ensures OnePass(decorations, s) == s
  {
    if s == [] {
    } else {
      forall i | 0 <= i < |decorations| ensures decorations[i].pattern != [s[0]] {
      }
      EscapeOther(decorations, s[0]);
      OnePassOther(decorations, s[1..]);
    }
  }

  // Replacing the first pattern first, then passing once over the result with the others.
  lemma {:induction false} PeelFirst(decorations: seq<Decoration>, s: Text)
    requires decorations != [] && SingleCharacters(decorations) && LaterAbsent(decorations)
    ensures OnePass(decorations[1..], ReplaceAll(s, decorations[0])) == OnePass(decorations, s)
  {
    var d, rest := decorations[0], decorations[1..];
    if s == [] {
    } else {
      PeelFirst(decorations, s[1..]);
      var tail := ReplaceAll(s[1..], d);
      if s[..1] == d.pattern {
        assert d.pattern == [s[0]];
        OnePassConcat(rest, d.replacement, tail);
        forall i | 0 <= i < |rest| && |rest[i].pattern| == 1 ensures rest[i].pattern[0] !in d.replacement {
          assert rest[i] == decorations[i + 1];
        }
        OnePassOther(rest, d.replacement);
      } else {
        assert d.pattern != [s[0]];
        OnePassConcat(rest, [s[0]], tail);
        assert OnePass(rest, [s[0]]) == Escape(rest, s[0]) + OnePass(rest, []);
      }
    }
  }

  // Sequential replacement equals one simultaneous substitution when no later pattern occurs in
  // an earlier replacement.
  lemma {:induction false} SequentialIsOnePass(decorations: seq<Decoration>, s: Text)
    requires SingleCharacters(decorations) && LaterAbsent(decorations)
    ensures ReplaceEach(decorations, s) == OnePass(decorations, s)
  {
    if decorations == [] {
      OnePassOther(decorations, s);
    } else {
      assert LaterAbsent(decorations[1..]) by {
        assert forall i :: 0 <= i < |decorations| - 1 ==> decorations[1..][i] == decorations[i + 1];
      }
      SequentialIsOnePass(decorations[1..], ReplaceAll(s, decorations[0]));
      PeelFirst(decorations, s);
    }
  }

  // ----- The condition is exact for escaping tables -----

  predicate Escaping(decorations: seq<Decoration>) {
    && SingleCharacters(decorations)
    && (forall i :: 0 <= i < |decorations| ==> |decorations[i].replacement| >= 2)
    && (forall i, j :: 0 <= i < j < |decorations| ==> decorations[i].pattern != decorations[j].pattern)
  }

  lemma EscapingTail(decorations: seq<Decoration>)
    requires Escaping(decorations) && decorations != []
    ensures Escaping(decorations[1..])
  {
    var rest := decorations[1..];
    assert forall i :: 0 <= i < |rest| ==> rest[i] == decorations[i + 1];
  }

  lemma {:induction false} ReplaceGrows(s: Text, d: Decoration)
    requires |d.pattern| == 1 && |d.replacement| >= 2
    ensures |ReplaceAll(s, d)| >= |s|
    ensures if d.pattern[0] in s then |ReplaceAll(s, d)| > |s| else ReplaceAll(s, d) == s
  {
    if s == [] {
    } else {
      ReplaceGrows(s[1..], d);
      assert s == [s[0]] + s[1..];
      assert s[..1] == [s[0]];
    }
  }

  lemma {:induction false} SequenceGrows(decorations: seq<Decoration>, s: Text)
    requires Escaping(decorations)
    ensures |ReplaceEach(decorations, s)| >= |s|
    ensures (exists j :: 0 <= j < |decorations| && decorations[j].pattern[0] in s) ==>
              |ReplaceEach(decorations, s)| > |s|
  {
    if decorations == [] {
    } else {
      var d := decorations[0];
      EscapingTail(decorations);
      ReplaceGrows(s, d);
      SequenceGrows(decorations[1..], ReplaceAll(s, d));
      if d.pattern[0] !in s && exists j :: 0 <= j < |decorations| && decorations[j].pattern[0] in s {
        var j :| 0 <= j < |decorations| && decorations[j].pattern[0] in s;
        assert decorations[1..][j - 1].pattern[0] in s;
      }
    }
  }

  // It changes a text exactly if a pattern occurs there.
  lemma {:induction false} SequenceKeepsIff(decorations: seq<Decoration>, s: Text)
    requires Escaping(decorations)
    ensures ReplaceEach(decorations, s) == s <==> forall j :: 0 <= j < |decorations| ==> decorations[j].pattern[0] !in s
  {
    if decorations == [] {
    } else {
      var d, rest := decorations[0], decorations[1..];
      EscapingTail(decorations);
      ReplaceGrows(s, d);
      SequenceGrows(decorations, s);
      SequenceKeepsIff(rest, s);
      assert forall j :: 0 < j < |decorations| ==> decorations[j] == rest[j - 1];
    }
  }

  // Applied to one of its own patterns, a table yields that pattern's replacement, then goes on
  // with the decorations that follow.
  lemma {:induction false} OnPattern(decorations: seq<Decoration>, i: nat)
    requires Escaping(decorations) && i < |decorations|
    ensures var c := decorations[i].pattern[0];
      && OnePass(decorations, [c]) == decorations[i].replacement
      && ReplaceEach(decorations, [c]) == ReplaceEach(decorations[i + 1..], decorations[i].replacement)
  {
    var c := decorations[i].pattern[0];
    var d, rest := decorations[0], decorations[1..];
    assert decorations[i].pattern == [c];
    assert OnePass(decorations, [c]) == Escape(decorations, c) + OnePass(decorations, [c][1..]);
    if i == 0 {
      assert [c][..1] == d.pattern && ReplaceAll([c][1..], d) == [];
      assert ReplaceAll([c], d) == d.replacement;
    } else {
      EscapingTail(decorations);
      assert rest[i - 1] == decorations[i] && rest[i - 1 + 1..] == decorations[i + 1..];
      OnPattern(rest, i - 1);
      assert OnePass(rest, [c]) == Escape(rest, c) + OnePass(rest, [c][1..]);
      assert d.pattern != [c];
      assert [c][..1] == [c];
      assert ReplaceAll([c], d) == [c] + ReplaceAll([c][1..], d) == [c];
    }
  }

  // For a table of distinct characters with growing replacements, applying the decorations one
  // after the other is a simultaneous substitution of every text exactly when no later pattern
  // occurs in an earlier replacement: the order of the table matters.
  lemma SequentialIsOnePassIff(decorations: seq<Decoration>)
    requires Escaping(decorations)
    ensures (forall s :: ReplaceEach(decorations, s) == OnePass(decorations, s)) <==> LaterAbsent(decorations)
  {
    if LaterAbsent(decorations) {
      forall s ensures ReplaceEach(decorations, s) == OnePass(decorations, s) {
        SequentialIsOnePass(decorations, s);
      }
    } else {
      var i, j :| 0 <= i < j < |decorations| && decorations[j].pattern[0] in decorations[i].replacement;
      RewrittenAgain(decorations, i, j);
    }
  }

  // Applied to its i-th pattern, such a table rewrites what it has just written.
  lemma RewrittenAgain(decorations: seq<Decoration>, i: nat, j: nat)
    requires Escaping(decorations) && i < j < |decorations|
    requires decorations[j].pattern[0] in decorations[i].replacement
    ensures var s := [decorations[i].pattern[0]]; ReplaceEach(decorations, s) != OnePass(decorations, s)
  {
    var later := decorations[i + 1..];
    assert forall k :: 0 <= k < |later| ==> later[k] == decorations[i + 1 + k];
    assert later[j - i - 1].pattern[0] in decorations[i].replacement;
    OnPattern(decorations, i);
    SequenceGrows(later, decorations[i].replacement);
  }
}
