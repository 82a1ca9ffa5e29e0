/**
 * getTypeList: the name of the view-type constant generated for each holder.
 */
module TagNamer {
  import opened Declarations

  predicate IsUpper(c: char) {
    'A' <= c <= 'Z'
  }

  predicate IsLower(c: char) {
    'a' <= c <= 'z'
  }

  /** Char.uppercase() on ASCII: lower-case letters are shifted, every other character is kept. */
  function UpperCase(c: char): char {
    if IsLower(c) then (c as int - 32) as char else c
  }

  /** What one character of the simple name becomes: `_X` for an upper-case X, else its upper-case form. */
  function Segment(c: char): string {
    if IsUpper(c) then ['_', c] else [UpperCase(c)]
  }

  /** The segments of all characters, in order, concatenated. */
  function Segments(s: string): string
    decreases |s|
  {
    if s == [] then "" else Segments(s[..|s| - 1]) + Segment(s[|s| - 1])
  }

  /** The constant name of one holder: "TYPE" followed by the segments of its simple name. */
  function TagName(simpleName: string): string {
    "TYPE" + Segments(simpleName)
  }

  /** getTypeList: one tag name per holder, in holder order. */
  function TypeList(holders: seq<ClassDeclaration>): (typeList: seq<string>)
    ensures |typeList| == |holders|
    decreases |holders|
  {
    if holders == [] then []
    else [TagName(holders[0].SimpleName())] + TypeList(holders[1..])
  }

  /** Entry `i` of the tag list is the tag name of holder `i` alone. */
  lemma {:induction false} TypeListAt(holders: seq<ClassDeclaration>, i: nat)
    requires i < |holders|
    ensures TypeList(holders)[i] == TagName(holders[i].SimpleName())
    decreases |holders|
  {
    if i > 0 {
      TypeListAt(holders[1..], i - 1);
    } else if |holders| > 1 {
      TypeListAt(holders[1..], 0);
    }
  }

  /** Appending one character appends its segment. */
  lemma SegmentsSnoc(s: string, c: char)
    ensures Segments(s + [c]) == Segments(s) + Segment(c)
  {
  }

  /** Segments distributes over concatenation of names. */
  lemma {:induction false} SegmentsAppend(s: string, t: string)
    ensures Segments(s + t) == Segments(s) + Segments(t)
    decreases |t|
  {
    if t == [] {
      assert s + t == s;
    } else {
      var n := |t| - 1;
      assert (s + t)[..|s + t| - 1] == s + t[..n];
      SegmentsAppend(s, t[..n]);
    }
  }

  /**
   * Character `i` of the name is rendered, in place, as its own segment:
   * the output holds Segment(s[i]) right after the segments of s[..i].
   */
  lemma SegmentsAt(s: string, i: nat)
    requires i < |s|
    ensures var at := |Segments(s[..i])|;
      at + |Segment(s[i])| <= |Segments(s)| && Segments(s)[at..at + |Segment(s[i])|] == Segment(s[i])
  {
    assert s == s[..i] + [s[i]] + s[i + 1..];
    SegmentsAppend(s[..i] + [s[i]], s[i + 1..]);
    SegmentsAppend(s[..i], [s[i]]);
    assert Segments([s[i]]) == Segment(s[i]) by {
      assert [s[i]][..0] == [];
    }
  }

  /** The number of upper-case letters in a name. */
  function UpperCount(s: string): nat
    decreases |s|
  {
    if s == [] then 0 else UpperCount(s[..|s| - 1]) + (if IsUpper(s[|s| - 1]) then 1 else 0)
  }

  /** Each upper-case letter adds one `_`: the tag name is 4 + |s| + (upper-case letters) long. */
  lemma {:induction false} TagNameLength(s: string)
    ensures |TagName(s)| == 4 + |s| + UpperCount(s)
    decreases |s|
  {
    if s != [] {
      TagNameLength(s[..|s| - 1]);
    }
  }

  /** A tag name starts with "TYPE" and holds no lower-case ASCII letter. */
  lemma {:induction false} TagNameShape(s: string)
    ensures |TagName(s)| >= 4 && TagName(s)[..4] == "TYPE"
    ensures forall j :: 0 <= j < |TagName(s)| ==> !IsLower(TagName(s)[j])
    decreases |s|
  {
    if s != [] {
      var n := |s| - 1;
      TagNameShape(s[..n]);
      assert TagName(s) == TagName(s[..n]) + Segment(s[n]);
    }
  }

  /** A string with every `_` taken out. */
  function WithoutUnderscores(t: string): string
    decreases |t|
  {
    if t == [] then ""
    else WithoutUnderscores(t[..|t| - 1]) + (if t[|t| - 1] == '_' then "" else [t[|t| - 1]])
  }

  lemma {:induction false} WithoutUnderscoresAppend(t: string, u: string)
    ensures WithoutUnderscores(t + u) == WithoutUnderscores(t) + WithoutUnderscores(u)
    decreases |u|
  {
    if u == [] {
      assert t + u == t;
    } else {
      var n := |u| - 1;
      assert (t + u)[..|t + u| - 1] == t + u[..n];
      WithoutUnderscoresAppend(t, u[..n]);
    }
  }

  /** The name with every character in upper case. */
  function UpperAll(s: string): string
    decreases |s|
  {
    if s == [] then "" else UpperAll(s[..|s| - 1]) + [UpperCase(s[|s| - 1])]
  }

  /**
   * The segments can be read back: for a name without `_`, taking the
   * underscores out of its segments gives the name in upper case.
   */
  lemma {:induction false} SegmentsReadBack(s: string)
    requires forall i :: 0 <= i < |s| ==> s[i] != '_'
    ensures WithoutUnderscores(Segments(s)) == UpperAll(s)
    decreases |s|
  {
    if s != [] {
      var n := |s| - 1;
      SegmentsReadBack(s[..n]);
      WithoutUnderscoresAppend(Segments(s[..n]), Segment(s[n]));
      var seg := Segment(s[n]);
      if IsUpper(s[n]) {
        assert seg[..1] == ['_'] && ['_'][..0] == [];
        assert WithoutUnderscores(['_']) == "";
      } else {
        assert seg[..0] == [];
      }
    }
  }

  /** Distinct holder names can share a tag name: the namer detects no collision. */
  lemma TagNamesCanCollide()
    ensures "AB" != "A_b" && TagName("AB") == TagName("A_b") == "TYPE_A_B"
  {
    assert "AB" == "A" + "B";
    SegmentsAppend("A", "B");
    assert "A_b" == "A" + "_" + "b";
    SegmentsAppend("A" + "_", "b");
    SegmentsAppend("A", "_");
  }
}
