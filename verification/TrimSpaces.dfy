/** TrimSpaces (helpers/tests.go): four replacements repeated until none changes anything. */
module TrimSpaces {

  // strings.Replace without a limit: leftmost occurrences first, never overlapping.
  function ReplaceAll(s: string, old_: string, new_: string): string
    requires old_ != []
    decreases |s|
  {
    if |s| < |old_| then s
    else if s[..|old_|] == old_ then new_ + ReplaceAll(s[|old_|..], old_, new_)
    else [s[0]] + ReplaceAll(s[1..], old_, new_)
  }

  // unicode.IsSpace
  predicate IsSpace(c: char) {
    var u := c as int;
    || 9 <= u <= 13 || u == 32 || u == 0x85 || u == 0xA0 || u == 0x1680 || 0x2000 <= u <= 0x200A
    || u == 0x2028 || u == 0x2029 || u == 0x202F || u == 0x205F || u == 0x3000
  }

  // The characters with the White_Space property of Unicode.
  const WHITE_SPACE: set<char> := {
    '\t', '\n', '\U{B}', '\U{C}', '\r', ' ', '\U{85}', '\U{A0}', '\U{1680}',
    '\U{2000}', '\U{2001}', '\U{2002}', '\U{2003}', '\U{2004}', '\U{2005}', '\U{2006}', '\U{2007}',
    '\U{2008}', '\U{2009}', '\U{200A}', '\U{2028}', '\U{2029}', '\U{202F}', '\U{205F}', '\U{3000}'
  }

  lemma SpacesAreWhite(c: char)
    ensures IsSpace(c) <==> c in WHITE_SPACE
  {
  }

  function TrimLeft(s: string): string {
    if s != [] && IsSpace(s[0]) then TrimLeft(s[1..]) else s
  }

  function TrimRight(s: string): string {
    if s != [] && IsSpace(s[|s| - 1]) then TrimRight(s[..|s| - 1]) else s
  }

  /** strings.TrimSpace */
  function TrimSpace(s: string): string {
    TrimRight(TrimLeft(s))
  }

  function Pass(s: string): string {
    var s := ReplaceAll(s, "\t", " ");
    var s := ReplaceAll(s, "  ", " ");
    var s := ReplaceAll(s, "\n ", "\n");
    ReplaceAll(s, " \n", "\n")
  }

  function Tabs(s: string): nat {
    if s == [] then 0 else (if s[0] == '\t' then 1 else 0) + Tabs(s[1..])
  }

  function Fix(s: string): string
    decreases |s|, Tabs(s)
  {
    PassShrinks(s);
    if Pass(s) == s then s else Fix(Pass(s))
  }

  method TrimSpaces(input: string) returns (output: string)
    ensures output == TrimSpace(Fix(input))
    ensures Tidy(output) && Trimmed(output) && Words(output, []) == Words(input, [])
    ensures Skeleton(output) == TrimSpace(Skeleton(input))
  {
    output := "";
    var next := input;
    assert Pass("") == "";
    while output != next
      invariant Fix(next) == Fix(input)
      invariant output == next ==> Pass(next) == next
      decreases |next|, Tabs(next), if output == next then 0 else 1
    {
      output := next;
      PassShrinks(next);
      next := ReplaceAll(next, "\t", " ");
      next := ReplaceAll(next, "  ", " ");
      next := ReplaceAll(next, "\n ", "\n");
      next := ReplaceAll(next, " \n", "\n");
      assert next == Pass(output);
    }
    output := TrimSpace(output);
    TrimSpacesNormalises(input);
  }

  /* ---- The fixpoint ---- */

  predicate At(s: string, p: string, i: nat) {
    i + |p| <= |s| && s[i..i + |p|] == p
  }

  ghost predicate Occurs(s: string, p: string) {
    exists i: nat :: At(s, p, i)
  }

  lemma OccursInRest(s: string, p: string)
    requires p != [] && |s| >= |p| && s[..|p|] != p
    ensures Occurs(s, p) <==> Occurs(s[1..], p)
  {
    if i: nat :| At(s, p, i) {
      assert s[1..][i - 1..i - 1 + |p|] == s[i..i + |p|];
      assert At(s[1..], p, i - 1);
    }
    if i: nat :| At(s[1..], p, i) {
      assert s[i + 1..i + 1 + |p|] == s[1..][i..i + |p|];
      assert At(s, p, i + 1);
    }
  }

  lemma OccursAtStart(s: string, p: string)
    requires |p| <= |s| && s[..|p|] == p
    ensures Occurs(s, p)
  {
    assert At(s, p, 0);
  }

  lemma {:induction false} ReplacementShrinks(s: string, p: string, q: string)
    requires |q| < |p|
    ensures |ReplaceAll(s, p, q)| <= |s|
    ensures Occurs(s, p) ==> |ReplaceAll(s, p, q)| < |s|
    ensures !Occurs(s, p) ==> ReplaceAll(s, p, q) == s
    decreases |s|
  {
    if |s| >= |p| {
      if s[..|p|] == p {
        OccursAtStart(s, p);
        ReplacementShrinks(s[|p|..], p, q);
      } else {
        OccursInRest(s, p);
        ReplacementShrinks(s[1..], p, q);
      }
    }
  }

  lemma {:induction false} TabsAreReplaced(s: string)
    ensures var t := ReplaceAll(s, "\t", " ");
            && |t| == |s| && Tabs(t) == 0
            && (t == s <==> Tabs(s) == 0)
    decreases |s|
  {
    if s != [] {
      var t := ReplaceAll(s, "\t", " ");
      TabsAreReplaced(s[1..]);
      assert (s[..1] == "\t") == (s[0] == '\t') by { assert s[..1][0] == s[0]; }
      assert t == [if s[0] == '\t' then ' ' else s[0]] + ReplaceAll(s[1..], "\t", " ");
      assert t[1..] == ReplaceAll(s[1..], "\t", " ");
      assert t == s ==> t[1..] == s[1..];
      assert s == [s[0]] + s[1..];
    }
  }

  // Four replacements that compose to the identity are the identity each.
  lemma PassIsIdentityExactly(s: string)
    ensures Pass(s) == s <==> Tabs(s) == 0 && !Occurs(s, "  ") && !Occurs(s, "\n ") && !Occurs(s, " \n")
    ensures |Pass(s)| <= |s|
    ensures |Pass(s)| == |s| && Pass(s) != s ==> Tabs(Pass(s)) < Tabs(s)
  {
    var s1 := ReplaceAll(s, "\t", " ");
    var s2 := ReplaceAll(s1, "  ", " ");
    var s3 := ReplaceAll(s2, "\n ", "\n");
    TabsAreReplaced(s);
    ReplacementShrinks(s1, "  ", " ");
    ReplacementShrinks(s2, "\n ", "\n");
    ReplacementShrinks(s3, " \n", "\n");
  }

  lemma PassShrinks(s: string)
    ensures Pass(s) == s || |Pass(s)| < |s| || (|Pass(s)| == |s| && Tabs(Pass(s)) < Tabs(s))
  {
    PassIsIdentityExactly(s);
  }

  lemma {:induction false} FixIsFixed(s: string)
    ensures Pass(Fix(s)) == Fix(s)
    decreases |s|, Tabs(s)
  {
    PassShrinks(s);
    if Pass(s) != s {
      FixIsFixed(Pass(s));
    }
  }

  /* ---- What the result looks like ---- */

  predicate Tidy(s: string) {
    && (forall i | 0 <= i < |s| :: s[i] != '\t')
    && (forall i | 0 < i < |s| :: s[i] == ' ' ==> s[i - 1] != ' ' && s[i - 1] != '\n')
    && (forall i | 0 < i < |s| :: s[i] == '\n' ==> s[i - 1] != ' ')
  }

  lemma {:induction false} NoTabs(s: string)
    ensures Tabs(s) == 0 <==> forall i | 0 <= i < |s| :: s[i] != '\t'
  {
    if s != [] {
      NoTabs(s[1..]);
      assert forall i | 0 < i < |s| :: s[i] == s[1..][i - 1];
      assert Tabs(s[1..]) != 0 ==> exists i | 0 <= i < |s[1..]| :: s[1..][i] == '\t' && s[i + 1] == '\t';
    }
  }

  lemma PairAt(s: string, a: char, b: char, i: nat)
    ensures At(s, [a, b], i) <==> i + 1 < |s| && s[i] == a && s[i + 1] == b
  {
    if i + 1 < |s| {
      assert s[i..i + 2] == [s[i], s[i + 1]];
    }
  }

  lemma NoPair(s: string, a: char, b: char)
    ensures !Occurs(s, [a, b]) <==> forall i | 0 < i < |s| :: !(s[i - 1] == a && s[i] == b)
  {
    forall i: nat ensures At(s, [a, b], i) <==> i + 1 < |s| && s[i] == a && s[i + 1] == b {
      PairAt(s, a, b, i);
    }
    if i :| 0 < i < |s| && s[i - 1] == a && s[i] == b {
      assert At(s, [a, b], i - 1);
    }
    if i: nat :| At(s, [a, b], i) {
      assert s[i + 1 - 1] == a && s[i + 1] == b;
    }
  }

  lemma TidyIsFixed(s: string)
    ensures Tidy(s) <==> Pass(s) == s
  {
    PassIsIdentityExactly(s);
    NoTabs(s);
    NoPair(s, ' ', ' ');
    NoPair(s, '\n', ' ');
    NoPair(s, ' ', '\n');
  }

  lemma {:induction false} TrimLeftIsSuffix(s: string) returns (i: nat)
    ensures i <= |s| && TrimLeft(s) == s[i..]
    ensures i < |s| ==> !IsSpace(s[i])
  {
    if s != [] && IsSpace(s[0]) {
      i := TrimLeftIsSuffix(s[1..]);
      i := i + 1;
    } else {
      i := 0;
    }
  }

  lemma {:induction false} TrimRightIsPrefix(s: string) returns (i: nat)
    ensures i <= |s| && TrimRight(s) == s[..i]
    ensures i > 0 ==> !IsSpace(s[i - 1])
  {
    if s != [] && IsSpace(s[|s| - 1]) {
      i := TrimRightIsPrefix(s[..|s| - 1]);
    } else {
      i := |s|;
    }
  }

  predicate Trimmed(s: string) {
    s != [] ==> s[0] !in WHITE_SPACE && s[|s| - 1] !in WHITE_SPACE
  }

  lemma PartOfTidy(s: string, i: nat, j: nat)
    requires Tidy(s) && i <= j <= |s|
    ensures Tidy(s[i..j])
  {
    var t := s[i..j];
    assert forall k | 0 <= k < |t| :: t[k] == s[k + i];
  }

  lemma TrimSpaceTrims(s: string)
    ensures Trimmed(TrimSpace(s))
    ensures Tidy(s) ==> Tidy(TrimSpace(s))
    ensures Trimmed(s) ==> TrimSpace(s) == s
  {
    hide Tidy, IsSpace, WHITE_SPACE;
    forall c: char ensures IsSpace(c) <==> c in WHITE_SPACE {
      SpacesAreWhite(c);
    }
    var t := TrimLeft(s);
    var i := TrimLeftIsSuffix(s);
    var j := TrimRightIsPrefix(t);
    if Tidy(s) {
      assert t[..j] == s[i..i + j];
      PartOfTidy(s, i, i + j);
    }
  }

  /* ---- What the result keeps ---- */

  // strings.Fields, `word` being the one that is being read.
  function Words(s: string, word: string): seq<string>
    decreases |s|
  {
    var done := if word == [] then [] else [word];
    if s == [] then done
    else if s[0] in WHITE_SPACE then done + Words(s[1..], [])
    else Words(s[1..], word + [s[0]])
  }

  predicate Blank(s: string) {
    s != [] && forall c <- s :: c in WHITE_SPACE
  }

  lemma {:induction false} BlankEndsWord(blank: string, s: string, word: string)
    requires Blank(blank)
    ensures Words(blank + s, word) == (if word == [] then [] else [word]) + Words(s, [])
    decreases |blank|
  {
    assert (blank + s)[1..] == blank[1..] + s && blank[0] in blank;
    if |blank| > 1 {
      assert forall c <- blank[1..] :: c in blank;
      BlankEndsWord(blank[1..], s, []);
    } else {
      assert blank[1..] + s == s;
    }
  }

  lemma {:induction false} ReplacementKeepsWords(s: string, p: string, q: string, word: string)
    requires Blank(p) && Blank(q)
    ensures Words(ReplaceAll(s, p, q), word) == Words(s, word)
    decreases |s|
  {
    hide WHITE_SPACE;
    if |s| >= |p| {
      if s[..|p|] == p {
        ReplacementKeepsWords(s[|p|..], p, q, []);
        BlankEndsWord(p, s[|p|..], word);
        BlankEndsWord(q, ReplaceAll(s[|p|..], p, q), word);
        assert s == p + s[|p|..];
      } else {
        var rest := ReplaceAll(s[1..], p, q);
        assert ([s[0]] + rest)[1..] == rest;
        ReplacementKeepsWords(s[1..], p, q, if s[0] in WHITE_SPACE then [] else word + [s[0]]);
      }
    }
  }

  lemma PassKeepsWords(s: string)
    ensures Words(Pass(s), []) == Words(s, [])
  {
    var s1 := ReplaceAll(s, "\t", " ");
    var s2 := ReplaceAll(s1, "  ", " ");
    var s3 := ReplaceAll(s2, "\n ", "\n");
    ReplacementKeepsWords(s, "\t", " ", []);
    ReplacementKeepsWords(s1, "  ", " ", []);
    ReplacementKeepsWords(s2, "\n ", "\n", []);
    ReplacementKeepsWords(s3, " \n", "\n", []);
  }

  lemma {:induction false} FixKeepsWords(s: string)
    ensures Words(Fix(s), []) == Words(s, [])
    decreases |s|, Tabs(s)
  {
    PassShrinks(s);
    if Pass(s) != s {
      PassKeepsWords(s);
      FixKeepsWords(Pass(s));
    }
  }

  lemma {:induction false} TrimLeftKeepsWords(s: string)
    ensures Words(TrimLeft(s), []) == Words(s, [])
  {
    if s != [] && IsSpace(s[0]) {
      SpacesAreWhite(s[0]);
      TrimLeftKeepsWords(s[1..]);
    }
  }

  lemma {:induction false} SpaceAtEndIsNoWord(s: string, c: char, word: string)
    requires c in WHITE_SPACE
    ensures Words(s + [c], word) == Words(s, word)
    decreases |s|
  {
    hide WHITE_SPACE;
    if s == [] {
      assert s + [c] == [c] && [c][1..] == [];
    } else {
      assert (s + [c])[1..] == s[1..] + [c];
      SpaceAtEndIsNoWord(s[1..], c, if s[0] in WHITE_SPACE then [] else word + [s[0]]);
    }
  }

  lemma {:induction false} TrimRightKeepsWords(s: string)
    ensures Words(TrimRight(s), []) == Words(s, [])
  {
    if s != [] && IsSpace(s[|s| - 1]) {
      var front, c := s[..|s| - 1], s[|s| - 1];
      TrimRightKeepsWords(front);
      SpacesAreWhite(c);
      SpaceAtEndIsNoWord(front, c, []);
      assert s == front + [c];
    }
  }

  // What is neither a space nor a tab: the words and the line ends between them.
  function Skeleton(s: string): string {
    if s == [] then []
    else
      var rest := Skeleton(s[..|s| - 1]);
      var c := s[|s| - 1];
      if c == ' ' || c == '\t' then rest else rest + [c]
  }

  lemma {:induction false} SkeletonConcat(s: string, t: string)
    ensures Skeleton(s + t) == Skeleton(s) + Skeleton(t)
    decreases |t|
  {
    if t == [] {
      assert s + t == s;
    } else {
      assert (s + t)[..|s + t| - 1] == s + t[..|t| - 1];
      SkeletonConcat(s, t[..|t| - 1]);
    }
  }

  lemma {:induction false} ReplacementKeepsSkeleton(s: string, p: string, q: string)
    requires p != [] && Skeleton(p) == Skeleton(q)
    ensures Skeleton(ReplaceAll(s, p, q)) == Skeleton(s)
    decreases |s|
  {
    if |s| >= |p| {
      if s[..|p|] == p {
        ReplacementKeepsSkeleton(s[|p|..], p, q);
        SkeletonConcat(p, s[|p|..]);
        SkeletonConcat(q, ReplaceAll(s[|p|..], p, q));
        assert s == p + s[|p|..];
      } else {
        ReplacementKeepsSkeleton(s[1..], p, q);
        SkeletonConcat([s[0]], s[1..]);
        SkeletonConcat([s[0]], ReplaceAll(s[1..], p, q));
        assert s == [s[0]] + s[1..];
      }
    }
  }

  lemma PassKeepsSkeleton(s: string)
    ensures Skeleton(Pass(s)) == Skeleton(s)
  {
    var s1 := ReplaceAll(s, "\t", " ");
    var s2 := ReplaceAll(s1, "  ", " ");
    var s3 := ReplaceAll(s2, "\n ", "\n");
    SkeletonConcat(" ", " ");
    SkeletonConcat("\n", " ");
    SkeletonConcat(" ", "\n");
    assert Skeleton([]) == [];
    assert "\t"[..0] == [] && " "[..0] == [] && "\n"[..0] == [];
    assert " " + " " == "  " && "\n" + " " == "\n " && " " + "\n" == " \n";
    ReplacementKeepsSkeleton(s, "\t", " ");
    ReplacementKeepsSkeleton(s1, "  ", " ");
    ReplacementKeepsSkeleton(s2, "\n ", "\n");
    ReplacementKeepsSkeleton(s3, " \n", "\n");
  }

  lemma {:induction false} FixKeepsSkeleton(s: string)
    ensures Skeleton(Fix(s)) == Skeleton(s)
    decreases |s|, Tabs(s)
  {
    PassShrinks(s);
    if Pass(s) != s {
      PassKeepsSkeleton(s);
      FixKeepsSkeleton(Pass(s));
    }
  }

  lemma SkeletonFront(c: char, s: string)
    ensures Skeleton([c] + s) == (if c == ' ' || c == '\t' then [] else [c]) + Skeleton(s)
  {
    SkeletonConcat([c], s);
    assert [c][..0] == [];
  }

  lemma {:induction false} TrimLeftOfSkeleton(s: string)
    ensures Skeleton(TrimLeft(s)) == TrimLeft(Skeleton(s))
  {
    hide Skeleton;
    if s == [] {
      assert Skeleton(s) == [] by { SkeletonNone(); }
    } else {
      SkeletonFront(s[0], s[1..]);
      assert s == [s[0]] + s[1..];
      TrimLeftOfSkeleton(s[1..]);
      if s[0] != ' ' && s[0] != '\t' {
        assert Skeleton(s)[1..] == Skeleton(s[1..]);
      } else {
        assert [] + Skeleton(s[1..]) == Skeleton(s[1..]);
      }
    }
  }

  lemma SkeletonNone()
    ensures Skeleton([]) == []
  {
  }

  lemma {:induction false} TrimRightOfSkeleton(s: string)
    ensures Skeleton(TrimRight(s)) == TrimRight(Skeleton(s))
  {
    if s != [] {
      var front, c := s[..|s| - 1], s[|s| - 1];
      TrimRightOfSkeleton(front);
      if c != ' ' && c != '\t' {
        assert Skeleton(s)[..|Skeleton(s)| - 1] == Skeleton(front);
      }
    }
  }

  // The whole of TrimSpaces: the result is tidy and trimmed, it has the words of the input and,
  // inside, its line ends; and trimming it again changes nothing.
  lemma TrimSpacesNormalises(input: string)
    ensures var output := TrimSpace(Fix(input));
            && Tidy(output) && Trimmed(output)
            && Words(output, []) == Words(input, [])
            && Skeleton(output) == TrimSpace(Skeleton(input))
            && TrimSpace(Fix(output)) == output
  {
    var fixed := Fix(input);
    FixIsFixed(input);
    TidyIsFixed(fixed);
    TrimSpaceTrims(fixed);
    var output := TrimSpace(fixed);
    TidyIsFixed(output);
    TrimSpaceTrims(output);
    FixKeepsWords(input);
    TrimLeftKeepsWords(fixed);
    TrimRightKeepsWords(TrimLeft(fixed));
    FixKeepsSkeleton(input);
    TrimLeftOfSkeleton(fixed);
    TrimRightOfSkeleton(TrimLeft(fixed));
  }
}
