/**
 * The declarations the processor reads from the symbol table, reduced to the
 * parts the generator looks at. Each record stands for one KSP symbol.
 */
module Declarations {
  import opened Wrappers

  /**
   * An annotation on a parameter or function. `shortName` is the annotation's
   * simple name (what `shortName.asString()` gives); `text` is the string the
   * annotation renders to, which is what adapter parameters are keyed by.
   */
  datatype Annotation = Annotation(shortName: string, text: string)

  /**
   * A value parameter. `name` is absent for parameters KSP reports without a
   * name; `typeText` is the type reference as written; `unresolved` tells
   * whether the type resolved to an error type (a view-binding class that is
   * generated later in the build).
   */
  datatype Parameter = Parameter(
    name: Option<string>,
    annotations: seq<Annotation>,
    typeText: string,
    unresolved: bool)

  /**
   * A node of the declaration tree: its simple name, whether it is a type
   * parameter declaration, and its enclosing declaration (None at top level).
   */
  datatype Declaration = Declaration(
    simpleName: string,
    isTypeParameter: bool,
    parent: Option<Declaration>)

  /** A function declared in a class: its name, annotations and parameters. */
  datatype FunctionDeclaration = FunctionDeclaration(
    simpleName: string,
    annotations: seq<Annotation>,
    parameters: seq<Parameter>)

  /**
   * A class: its place in the declaration tree, its package, its primary
   * constructor's parameters (None when it has no primary constructor) and
   * its declared functions, in declaration order.
   */
  datatype ClassDeclaration = ClassDeclaration(
    declaration: Declaration,
    packageName: string,
    primaryConstructor: Option<seq<Parameter>>,
    functions: seq<FunctionDeclaration>)
  {
    function SimpleName(): string {
      declaration.simpleName
    }

    /** `primaryConstructor?.parameters.orEmpty()` */
    function ConstructorParameters(): seq<Parameter> {
      primaryConstructor.GetOr([])
    }
  }

  /** `p.name?.asString().orEmpty()` */
  function NameOrEmpty(p: Parameter): string {
    p.name.GetOr("")
  }

  /** The rendered texts of a list of annotations, in order. */
  function Texts(annotations: seq<Annotation>): (texts: seq<string>)
    ensures |texts| == |annotations|
    ensures forall i :: 0 <= i < |annotations| ==> texts[i] == annotations[i].text
  {
    seq(|annotations|, i requires 0 <= i < |annotations| => annotations[i].text)
  }

  /** The names of a parameter list, absent names given as "". */
  function ParameterNames(ps: seq<Parameter>): (names: seq<string>)
    ensures |names| == |ps|
    ensures forall i :: 0 <= i < |ps| ==> names[i] == NameOrEmpty(ps[i])
  {
    seq(|ps|, i requires 0 <= i < |ps| => NameOrEmpty(ps[i]))
  }

  /** Kotlin's `joinToString()` with its default separator ", ". */
  function Join(xs: seq<string>): string
    decreases |xs|
  {
    if |xs| == 0 then ""
    else if |xs| == 1 then xs[0]
    else Join(xs[..|xs| - 1]) + ", " + xs[|xs| - 1]
  }

  /** `n` copies of the message `m`: what `n` identical `logger.error` calls leave behind. */
  function Repeat(m: string, n: nat): (ms: seq<string>)
    ensures |ms| == n
    ensures forall i :: 0 <= i < n ==> ms[i] == m
  {
    seq(n, _ => m)
  }

  /** Joining one more element adds it after a separator, or alone to an empty list. */
  lemma JoinAppend(xs: seq<string>, x: string)
    ensures Join(xs + [x]) == if xs == [] then x else Join(xs) + ", " + x
  {
    assert (xs + [x])[..|xs|] == xs;
  }

  lemma RepeatAppend(m: string, n: nat)
    ensures Repeat(m, n) + [m] == Repeat(m, n + 1)
  {
  }
}
