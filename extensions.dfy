/**
 * The helpers of Extensions.kt: the annotation-to-name map of an adapter's
 * constructor, the nested name of a declaration, and type parameterisation.
 */
module Extensions {
  import opened Wrappers
  import opened Declarations
  import opened CodeModel

  // ---------------------------------------------------------------------
  // groupByAnnotation
  // ---------------------------------------------------------------------

  /** `m` after `m[a.text] = v` for each annotation `a`, in order. */
  function AssignAll(m: map<string, string>, annotations: seq<Annotation>, v: string): map<string, string>
    decreases |annotations|
  {
    if annotations == [] then m
    else AssignAll(m, annotations[..|annotations| - 1], v)[annotations[|annotations| - 1].text := v]
  }

  /**
   * The map groupByAnnotation builds: parameters taken in order, each
   * annotation text of each parameter written over what was there before.
   */
  function Grouped(ps: seq<Parameter>): map<string, string>
    decreases |ps|
  {
    if ps == [] then map[]
    else AssignAll(Grouped(ps[..|ps| - 1]), ps[|ps| - 1].annotations, NameOrEmpty(ps[|ps| - 1]))
  }

  /** groupByAnnotation: fills a mutable map in two nested loops. */
  method GroupByAnnotation(ps: seq<Parameter>) returns (result: map<string, string>)
    ensures result == Grouped(ps)
  {
    result := map[];
    for i := 0 to |ps|
      invariant result == Grouped(ps[..i])
    {
      var p := ps[i];
      var name := NameOrEmpty(p);
      ghost var start := result;
      for j := 0 to |p.annotations|
        invariant result == AssignAll(start, p.annotations[..j], name)
      {
        assert p.annotations[..j + 1][..j] == p.annotations[..j];
        result := result[p.annotations[j].text := name];
      }
      assert p.annotations[..|p.annotations|] == p.annotations;
      assert ps[..i + 1][..i] == ps[..i];
    }
    assert ps[..|ps|] == ps;
  }

  /** Key by key: AssignAll sets every annotation text to `v` and keeps the rest of `m`. */
  lemma {:induction false} AssignAllAt(m: map<string, string>, annotations: seq<Annotation>, v: string, k: string)
    ensures k in AssignAll(m, annotations, v) <==> k in m || k in Texts(annotations)
    ensures k in Texts(annotations) ==> AssignAll(m, annotations, v)[k] == v
    ensures k !in Texts(annotations) && k in m ==> AssignAll(m, annotations, v)[k] == m[k]
    decreases |annotations|
  {
    if annotations != [] {
      var n := |annotations| - 1;
      AssignAllAt(m, annotations[..n], v, k);
      assert Texts(annotations) == Texts(annotations[..n]) + [annotations[n].text];
    }
  }

  /** Every annotation text of every parameter is a key, and nothing else is. */
  lemma {:induction false} GroupedKeys(ps: seq<Parameter>, k: string)
    ensures k in Grouped(ps) <==> exists i :: 0 <= i < |ps| && k in Texts(ps[i].annotations)
    decreases |ps|
  {
    if ps != [] {
      var n := |ps| - 1;
      GroupedKeys(ps[..n], k);
      AssignAllAt(Grouped(ps[..n]), ps[n].annotations, NameOrEmpty(ps[n]), k);
      if k in Grouped(ps) && k !in Texts(ps[n].annotations) {
        var i :| 0 <= i < n && k in Texts(ps[..n][i].annotations);
        assert ps[i] == ps[..n][i];
      }
      if exists i :: 0 <= i < |ps| && k in Texts(ps[i].annotations) {
        var i :| 0 <= i < |ps| && k in Texts(ps[i].annotations);
        if i < n {
          assert ps[..n][i] == ps[i];
        }
      }
    }
  }

  /** When several parameters carry the same annotation text, the last of them gives the value. */
  lemma {:induction false} GroupedLastWins(ps: seq<Parameter>, k: string, i: nat)
    requires i < |ps| && k in Texts(ps[i].annotations)
    requires forall j :: i < j < |ps| ==> k !in Texts(ps[j].annotations)
    ensures k in Grouped(ps) && Grouped(ps)[k] == NameOrEmpty(ps[i])
    decreases |ps|
  {
    var n := |ps| - 1;
    if i < n {
      assert ps[..n][i] == ps[i];
      GroupedLastWins(ps[..n], k, i);
    }
    AssignAllAt(Grouped(ps[..n]), ps[n].annotations, NameOrEmpty(ps[n]), k);
  }

  /** Every key has a last parameter carrying it. */
  lemma {:induction false} LastCarrier(ps: seq<Parameter>, k: string) returns (i: nat)
    requires k in Grouped(ps)
    ensures i < |ps| && k in Texts(ps[i].annotations)
    ensures forall j :: i < j < |ps| ==> k !in Texts(ps[j].annotations)
    decreases |ps|
  {
    var n := |ps| - 1;
    AssignAllAt(Grouped(ps[..n]), ps[n].annotations, NameOrEmpty(ps[n]), k);
    if k in Texts(ps[n].annotations) {
      i := n;
    } else {
      i := LastCarrier(ps[..n], k);
      assert ps[..n][i] == ps[i];
    }
  }

  /** A parameter without annotations adds no key and changes no value, wherever it stands. */
  lemma GroupedSkipsUnannotated(a: seq<Parameter>, p: Parameter, b: seq<Parameter>, k: string)
    requires p.annotations == []
    ensures k in Grouped(a + [p] + b) <==> k in Grouped(a + b)
    ensures k in Grouped(a + b) ==> Grouped(a + [p] + b)[k] == Grouped(a + b)[k]
  {
    var withP, without := a + [p] + b, a + b;
    if k in Grouped(without) {
      var i := LastCarrier(without, k);
      var i' := if i < |a| then i else i + 1;
      assert withP[i'] == without[i];
      forall j | i' < j < |withP| ensures k !in Texts(withP[j].annotations) {
        if j < |a| {
          assert withP[j] == without[j];
        } else if j == |a| {
          assert withP[j] == p;
        } else {
          assert withP[j] == without[j - 1];
        }
      }
      GroupedLastWins(without, k, i);
      GroupedLastWins(withP, k, i');
    } else if k in Grouped(withP) {
      var i := LastCarrier(withP, k);
      assert i != |a|;
      var i' := if i < |a| then i else i - 1;
      assert without[i'] == withP[i];
      GroupedKeys(without, k);
    }
  }

  /** The number of annotations over all parameters. */
  function AnnotationCount(ps: seq<Parameter>): nat
    decreases |ps|
  {
    if ps == [] then 0 else AnnotationCount(ps[..|ps| - 1]) + |ps[|ps| - 1].annotations|
  }

  /** A sequence has at most as many distinct elements as it has positions. */
  lemma {:induction false} DistinctAtMostLength(s: seq<string>)
    ensures |set x | x in s| <= |s|
    decreases |s|
  {
    if s != [] {
      var n := |s| - 1;
      DistinctAtMostLength(s[..n]);
      assert (set x | x in s) == (set x | x in s[..n]) + {s[n]};
    }
  }

  /** The map never has more keys than there are annotations in all. */
  lemma {:induction false} GroupedSize(ps: seq<Parameter>)
    ensures |Grouped(ps)| <= AnnotationCount(ps)
    decreases |ps|
  {
    if ps != [] {
      var n := |ps| - 1;
      var last := Texts(ps[n].annotations);
      GroupedSize(ps[..n]);
      DistinctAtMostLength(last);
      forall k ensures k in Grouped(ps) <==> k in Grouped(ps[..n]) || k in last {
        AssignAllAt(Grouped(ps[..n]), ps[n].annotations, NameOrEmpty(ps[n]), k);
      }
      assert Grouped(ps).Keys == Grouped(ps[..n]).Keys + set x | x in last;
    }
  }

  // ---------------------------------------------------------------------
  // asNameList and toClassName
  // ---------------------------------------------------------------------

  /**
   * The names asNameList collects: the walk goes up the parent chain and
   * stops at the root or right after a type-parameter declaration; names
   * come out outermost first.
   */
  function NameList(d: Declaration): seq<string>
    decreases d
  {
    (if d.isTypeParameter || d.parent.None? then [] else NameList(d.parent.value)) + [d.simpleName]
  }

  /** What is still to be collected when the walk stands at `definition`. */
  function Remaining(definition: Option<Declaration>): seq<string> {
    match definition
    case None => []
    case Some(d) => NameList(d)
  }

  /** asNameList: prepends each visited name to a mutable list, walking up until null or a type parameter. */
  method AsNameList(d: Declaration) returns (list: seq<string>)
    ensures list == NameList(d)
  {
    list := [];
    var definition: Option<Declaration> := Some(d);
    while definition.Some?
      invariant NameList(d) == Remaining(definition) + list
      decreases definition
    {
      var current := definition.value;
      list := [current.simpleName] + list;
      if current.isTypeParameter {
        break;
      }
      definition := current.parent;
    }
  }

  /** The `k`-th declaration up the parent chain, `d` itself at 0, whatever its kind. */
  function Ancestor(d: Declaration, k: nat): Option<Declaration>
    decreases k
  {
    if k == 0 then Some(d)
    else match d.parent
      case None => None
      case Some(p) => Ancestor(p, k - 1)
  }

  /**
   * The name list, read against the parent chain: it has one entry per
   * visited declaration, the receiver's own name last; entry `n-1-k` is the
   * name of the `k`-th ancestor; no visited declaration before the last one
   * is a type parameter; and the last one visited is a type parameter or the
   * root.
   */
  lemma {:induction false} NameListWalk(d: Declaration)
    ensures var names := NameList(d);
      && |names| >= 1
      && names[|names| - 1] == d.simpleName
      && (forall k :: 0 <= k < |names| ==>
            Ancestor(d, k).Some? && names[|names| - 1 - k] == Ancestor(d, k).value.simpleName)
      && (forall k :: 0 <= k < |names| - 1 ==> !Ancestor(d, k).value.isTypeParameter)
      && (Ancestor(d, |names| - 1).value.isTypeParameter || Ancestor(d, |names| - 1).value.parent.None?)
    decreases d
  {
    if !d.isTypeParameter && d.parent.Some? {
      var p := d.parent.value;
      NameListWalk(p);
      var names := NameList(d);
      assert names == NameList(p) + [d.simpleName];
      forall k | 1 <= k < |names|
        ensures Ancestor(d, k) == Ancestor(p, k - 1)
      {
      }
    }
  }

  /** KSDeclaration.toClassName: the declaration's package with its nested name. */
  function ClassNameOf(c: ClassDeclaration): ClassName {
    ClassName(c.packageName, NameList(c.declaration))
  }

  /** toClassName, calling the imperative asNameList. */
  method ToClassName(c: ClassDeclaration) returns (name: ClassName)
    ensures name == ClassNameOf(c)
  {
    var names := AsNameList(c.declaration);
    name := ClassName(c.packageName, names);
  }

  // ---------------------------------------------------------------------
  // asParameterized
  // ---------------------------------------------------------------------

  /**
   * asParameterized: the class name itself when there are no type variables
   * (null or empty), otherwise the class name applied to exactly them.
   */
  function AsParameterized(c: ClassName, typeVariables: Option<seq<TypeName>>): (t: TypeName)
    ensures t.RawType() == c
    ensures t.Arguments() == typeVariables.GetOr([])
    ensures t.Plain? <==> typeVariables.GetOr([]) == []
  {
    if typeVariables.None? || |typeVariables.value| == 0 then Plain(c)
    else Parameterized(c, typeVariables.value)
  }
}
