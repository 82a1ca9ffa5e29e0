/**
 * The generation steps of BuilderProcessor: the view-type constants, the
 * two dispatch functions and the generated adapter subclass.
 */
module BuilderProcessor {
  import opened Wrappers
  import opened Declarations
  import opened CodeModel
  import opened Extensions
  import opened TagNamer
  import opened RoleResolver

  const VIEW_GROUP := ClassName("android.view", ["ViewGroup"])
  const LAYOUT_INFLATER := ClassName("android.view", ["LayoutInflater"])
  const VIEW_HOLDER := ClassName("androidx.recyclerview.widget.RecyclerView", ["ViewHolder"])
  const INT := ClassName("kotlin", ["Int"])

  /** The short name of the annotation that marks a holder's bind function. */
  const BIND_FUNCTION := "BindFunction"

  /** The message of the exception thrown for an unknown view type. */
  const NOT_SUPPORTED := "Not support type!"

  // ---------------------------------------------------------------------
  // genConstSpec
  // ---------------------------------------------------------------------

  /** The values the constants of a companion object are initialised to. */
  function Initializers(companion: seq<PropertySpec>): set<int> {
    set i | 0 <= i < |companion| :: companion[i].initializer
  }

  /**
   * genConstSpec: one Int constant per tag name, the one at position i
   * initialised to i; so the values are exactly 0..N-1, each once.
   */
  method GenConstSpec(typeList: seq<string>) returns (companion: seq<PropertySpec>)
    ensures |companion| == |typeList|
    ensures forall i :: 0 <= i < |typeList| ==> companion[i] == ConstInt(typeList[i], i)
    ensures forall i, j :: 0 <= i < j < |companion| ==> companion[i].initializer != companion[j].initializer
    ensures forall v :: v in Initializers(companion) <==> 0 <= v < |typeList|
  {
    companion := [];
    for index := 0 to |typeList|
      invariant |companion| == index
      invariant forall i :: 0 <= i < index ==> companion[i] == ConstInt(typeList[i], i)
    {
      companion := companion + [ConstInt(typeList[index], index)];
    }
    forall v | 0 <= v < |typeList|
      ensures v in Initializers(companion)
    {
      assert companion[v].initializer == v;
    }
  }

  // ---------------------------------------------------------------------
  // genCreateViewHolderSpec
  // ---------------------------------------------------------------------

  /** The view-binding class of a parameter whose type did not resolve. */
  function BindingClass(packageName: string, p: Parameter): ClassName {
    ClassName(packageName + ".databinding", [p.typeText])
  }

  /** One inflate statement per constructor parameter whose type is unresolved, in order. */
  function Inflates(packageName: string, ps: seq<Parameter>): seq<Statement>
    decreases |ps|
  {
    if ps == [] then []
    else
      var last := ps[|ps| - 1];
      Inflates(packageName, ps[..|ps| - 1]) + (if last.unresolved then [InflateBinding(BindingClass(packageName, last))] else [])
  }

  /** The branch of onCreateViewHolder for one holder: the inflates, then the constructor call. */
  function CreateBranch(packageName: string, tag: string, holder: ClassDeclaration, m: map<string, string>): Branch {
    var ps := holder.ConstructorParameters();
    Branch(tag, Inflates(packageName, ps) + [Construct(ClassNameOf(holder), Join(Arguments(CreateContext, ps, m)))])
  }

  /** The branches of onCreateViewHolder, one per tag, tag i built from holder i. */
  function CreateBranches(packageName: string, typeList: seq<string>, m: map<string, string>, holders: seq<ClassDeclaration>): seq<Branch>
    requires |typeList| <= |holders|
    decreases |typeList|
  {
    if typeList == [] then []
    else
      var n := |typeList| - 1;
      CreateBranches(packageName, typeList[..n], m, holders) + [CreateBranch(packageName, typeList[n], holders[n], m)]
  }

  /** The whole onCreateViewHolder function. */
  function CreateDispatch(packageName: string, typeList: seq<string>, m: map<string, string>, holders: seq<ClassDeclaration>): FunSpec
    requires |typeList| <= |holders|
  {
    FunSpec(
      "onCreateViewHolder",
      [ParameterSpec("parent", VIEW_GROUP), ParameterSpec("viewType", INT)],
      [DeclareInflater],
      true,
      "viewType",
      CreateBranches(packageName, typeList, m, holders),
      Some(NOT_SUPPORTED),
      Some(VIEW_HOLDER))
  }

  /** The errors onCreateViewHolder's construction logs, holder after holder. */
  function CreateErrors(typeList: seq<string>, m: map<string, string>, holders: seq<ClassDeclaration>): seq<string>
    requires |typeList| <= |holders|
    decreases |typeList|
  {
    if typeList == [] then []
    else
      var n := |typeList| - 1;
      CreateErrors(typeList[..n], m, holders)
        + ShortageErrors(CreateContext, holders[n].SimpleName(), holders[n].ConstructorParameters(), m)
  }

  /** genCreateViewHolderSpec: one branch per tag, built in a loop with an inner loop over constructor parameters. */
  method GenCreateViewHolderSpec(packageName: string, typeList: seq<string>, m: map<string, string>, holders: seq<ClassDeclaration>)
    returns (spec: FunSpec, errors: seq<string>)
    requires |typeList| <= |holders|
    ensures spec == CreateDispatch(packageName, typeList, m, holders)
    ensures errors == CreateErrors(typeList, m, holders)
  {
    var branches: seq<Branch> := [];
    errors := [];
    for index := 0 to |typeList|
      invariant branches == CreateBranches(packageName, typeList[..index], m, holders)
      invariant errors == CreateErrors(typeList[..index], m, holders)
    {
      assert typeList[..index + 1][..index] == typeList[..index];
      var holder := holders[index];
      var parameters := holder.ConstructorParameters();
      var body: seq<Statement> := [];
      for k := 0 to |parameters|
        invariant body == Inflates(packageName, parameters[..k])
      {
        assert parameters[..k + 1][..k] == parameters[..k];
        if parameters[k].unresolved {
          body := body + [InflateBinding(BindingClass(packageName, parameters[k]))];
        }
      }
      assert parameters[..|parameters|] == parameters;
      var arguments, errs := GetHolderParameter(holder.SimpleName(), parameters, m);
      var className := ToClassName(holder);
      body := body + [Construct(className, arguments)];
      branches := branches + [Branch(typeList[index], body)];
      errors := errors + errs;
    }
    assert typeList[..|typeList|] == typeList;
    spec := FunSpec(
      "onCreateViewHolder",
      [ParameterSpec("parent", VIEW_GROUP), ParameterSpec("viewType", INT)],
      [DeclareInflater],
      true,
      "viewType",
      branches,
      Some(NOT_SUPPORTED),
      Some(VIEW_HOLDER));
  }

  /**
   * onCreateViewHolder has one branch per tag, in order: branch i is tagged
   * typeList[i]; its body is one inflate per unresolved constructor parameter
   * of holder i followed by the call of holder i's constructor with the
   * resolved arguments; anything else falls to the throwing else branch.
   */
  lemma {:induction false} CreateBranchesAt(packageName: string, typeList: seq<string>, m: map<string, string>, holders: seq<ClassDeclaration>, i: nat)
    requires |typeList| <= |holders| && i < |typeList|
    ensures var branches := CreateBranches(packageName, typeList, m, holders);
      var ps := holders[i].ConstructorParameters();
      && |branches| == |typeList|
      && branches[i].tag == typeList[i]
      && |branches[i].body| == |Inflates(packageName, ps)| + 1
      && branches[i].body[..|branches[i].body| - 1] == Inflates(packageName, ps)
      && branches[i].body[|branches[i].body| - 1] == Construct(ClassNameOf(holders[i]), Join(Arguments(CreateContext, ps, m)))
    decreases |typeList|
  {
    var n := |typeList| - 1;
    CreateBranchesLength(packageName, typeList[..n], m, holders);
    if i < n {
      assert typeList[..n][i] == typeList[i];
      CreateBranchesAt(packageName, typeList[..n], m, holders, i);
    }
  }

  lemma {:induction false} CreateBranchesLength(packageName: string, typeList: seq<string>, m: map<string, string>, holders: seq<ClassDeclaration>)
    requires |typeList| <= |holders|
    ensures |CreateBranches(packageName, typeList, m, holders)| == |typeList|
    decreases |typeList|
  {
    if typeList != [] {
      CreateBranchesLength(packageName, typeList[..|typeList| - 1], m, holders);
    }
  }

  /** The inflate statements are exactly one per unresolved parameter, each naming a class of the binding package. */
  lemma {:induction false} InflatesCount(packageName: string, ps: seq<Parameter>)
    ensures |Inflates(packageName, ps)| == |set i | 0 <= i < |ps| && ps[i].unresolved|
    ensures forall s :: s in Inflates(packageName, ps) ==>
      s.InflateBinding? && s.bindingClass.packageName == packageName + ".databinding"
    decreases |ps|
  {
    if ps != [] {
      var n := |ps| - 1;
      InflatesCount(packageName, ps[..n]);
      var before := set i | 0 <= i < n && ps[..n][i].unresolved;
      assert before == set i | 0 <= i < n && ps[i].unresolved;
      if ps[n].unresolved {
        assert (set i | 0 <= i < |ps| && ps[i].unresolved) == before + {n};
      } else {
        assert (set i | 0 <= i < |ps| && ps[i].unresolved) == before;
      }
    }
  }

  /** Each inflate names the binding class of an unresolved parameter's own type, and every such class is inflated. */
  lemma {:induction false} InflatesNames(packageName: string, ps: seq<Parameter>)
    ensures forall s :: s in Inflates(packageName, ps) <==>
      exists i :: 0 <= i < |ps| && ps[i].unresolved && s == InflateBinding(BindingClass(packageName, ps[i]))
    decreases |ps|
  {
    if ps != [] {
      var n := |ps| - 1;
      InflatesNames(packageName, ps[..n]);
      forall s | s in Inflates(packageName, ps)
        ensures exists i :: 0 <= i < |ps| && ps[i].unresolved && s == InflateBinding(BindingClass(packageName, ps[i]))
      {
        if s in Inflates(packageName, ps[..n]) {
          var i :| 0 <= i < n && ps[..n][i].unresolved && s == InflateBinding(BindingClass(packageName, ps[..n][i]));
          assert ps[..n][i] == ps[i];
        } else {
          assert ps[n].unresolved && s == InflateBinding(BindingClass(packageName, ps[n]));
        }
      }
      forall i | 0 <= i < |ps| && ps[i].unresolved
        ensures InflateBinding(BindingClass(packageName, ps[i])) in Inflates(packageName, ps)
      {
        if i < n {
          assert ps[..n][i] == ps[i];
        }
      }
    }
  }

  // ---------------------------------------------------------------------
  // genOnBindViewHolderSpec
  // ---------------------------------------------------------------------

  /** `f.annotations.any { it.shortName == "BindFunction" }` */
  predicate IsBindFunction(f: FunctionDeclaration) {
    exists k :: 0 <= k < |f.annotations| && f.annotations[k].shortName == BIND_FUNCTION
  }

  /** `getDeclaredFunctions().firstOrNull { … }`, as an index: the first function marked BindFunction. */
  function FirstBindFunction(fs: seq<FunctionDeclaration>): (r: Option<nat>)
    ensures r.Some? ==> r.value < |fs| && IsBindFunction(fs[r.value])
    ensures r.Some? ==> forall j :: 0 <= j < r.value ==> !IsBindFunction(fs[j])
    ensures r.None? ==> forall j :: 0 <= j < |fs| ==> !IsBindFunction(fs[j])
    decreases |fs|
  {
    if fs == [] then None
    else if IsBindFunction(fs[0]) then Some(0)
    else match FirstBindFunction(fs[1..])
      case None => None
      case Some(i) => Some(i + 1)
  }

  /** The error logged for a holder without a bind function. */
  function MissingBindMessage(holder: ClassDeclaration): string {
    holder.SimpleName() + " don't have an OnBind annotation for Adapter to bind with"
  }

  /** The branch of onBindViewHolder for one holder: the call of its bind function, or nothing. */
  function BindBranch(tag: string, holder: ClassDeclaration, m: map<string, string>): Branch {
    match FirstBindFunction(holder.functions)
    case None => Branch(tag, [])
    case Some(i) =>
      var f := holder.functions[i];
      Branch(tag, [InvokeBind(holder.SimpleName(), f.simpleName, Join(Arguments(BindContext, f.parameters, m)))])
  }

  /** The errors one holder's bind branch logs. */
  function BindBranchErrors(holder: ClassDeclaration, m: map<string, string>): seq<string> {
    match FirstBindFunction(holder.functions)
    case None => [MissingBindMessage(holder)]
    case Some(i) =>
      var f := holder.functions[i];
      ShortageErrors(BindContext, holder.SimpleName() + "." + f.simpleName, f.parameters, m)
  }

  function BindBranches(typeList: seq<string>, m: map<string, string>, holders: seq<ClassDeclaration>): seq<Branch>
    requires |typeList| <= |holders|
    decreases |typeList|
  {
    if typeList == [] then []
    else
      var n := |typeList| - 1;
      BindBranches(typeList[..n], m, holders) + [BindBranch(typeList[n], holders[n], m)]
  }

  function BindErrors(typeList: seq<string>, m: map<string, string>, holders: seq<ClassDeclaration>): seq<string>
    requires |typeList| <= |holders|
    decreases |typeList|
  {
    if typeList == [] then []
    else
      var n := |typeList| - 1;
      BindErrors(typeList[..n], m, holders) + BindBranchErrors(holders[n], m)
  }

  /** The whole onBindViewHolder function. */
  function BindDispatch(typeList: seq<string>, m: map<string, string>, holders: seq<ClassDeclaration>): FunSpec
    requires |typeList| <= |holders|
  {
    FunSpec(
      "onBindViewHolder",
      [ParameterSpec("holder", VIEW_HOLDER), ParameterSpec("position", INT)],
      [],
      false,
      "getItemViewType(position)",
      BindBranches(typeList, m, holders),
      None,
      None)
  }

  /** genOnBindViewHolderSpec: one branch per tag, built in a loop. */
  method GenOnBindViewHolderSpec(typeList: seq<string>, m: map<string, string>, holders: seq<ClassDeclaration>)
    returns (spec: FunSpec, errors: seq<string>)
    requires |typeList| <= |holders|
    ensures spec == BindDispatch(typeList, m, holders)
    ensures errors == BindErrors(typeList, m, holders)
  {
    var branches: seq<Branch> := [];
    errors := [];
    for index := 0 to |typeList|
      invariant branches == BindBranches(typeList[..index], m, holders)
      invariant errors == BindErrors(typeList[..index], m, holders)
    {
      assert typeList[..index + 1][..index] == typeList[..index];
      var holder := holders[index];
      var holderName := holder.SimpleName();
      var bindFunction := FirstBindFunction(holder.functions);
      var body: seq<Statement> := [];
      if bindFunction.None? {
        errors := errors + [MissingBindMessage(holder)];
      } else {
        var f := holder.functions[bindFunction.value];
        var arguments, errs := GetBindParameter(holderName + "." + f.simpleName, f.parameters, m);
        body := [InvokeBind(holderName, f.simpleName, arguments)];
        errors := errors + errs;
      }
      branches := branches + [Branch(typeList[index], body)];
    }
    assert typeList[..|typeList|] == typeList;
    spec := FunSpec(
      "onBindViewHolder",
      [ParameterSpec("holder", VIEW_HOLDER), ParameterSpec("position", INT)],
      [],
      false,
      "getItemViewType(position)",
      branches,
      None,
      None);
  }

  /**
   * A holder's bind branch calls the first of its functions marked
   * BindFunction, later marked ones being ignored; without one, the branch is
   * empty and exactly one error names the holder.
   */
  lemma BindBranchShape(tag: string, holder: ClassDeclaration, m: map<string, string>, i: nat)
    ensures BindBranch(tag, holder, m).tag == tag
    ensures (forall j :: 0 <= j < |holder.functions| ==> !IsBindFunction(holder.functions[j])) ==>
      BindBranch(tag, holder, m).body == [] && BindBranchErrors(holder, m) == [MissingBindMessage(holder)]
    ensures (i < |holder.functions| && IsBindFunction(holder.functions[i])
        && forall j :: 0 <= j < i ==> !IsBindFunction(holder.functions[j])) ==>
      var f := holder.functions[i];
      BindBranch(tag, holder, m).body == [InvokeBind(holder.SimpleName(), f.simpleName, Join(Arguments(BindContext, f.parameters, m)))]
  {
  }

  lemma {:induction false} BindBranchesAt(typeList: seq<string>, m: map<string, string>, holders: seq<ClassDeclaration>, i: nat)
    requires |typeList| <= |holders| && i < |typeList|
    ensures |BindBranches(typeList, m, holders)| == |typeList|
    ensures BindBranches(typeList, m, holders)[i] == BindBranch(typeList[i], holders[i], m)
    decreases |typeList|
  {
    var n := |typeList| - 1;
    BindBranchesLength(typeList[..n], m, holders);
    if i < n {
      assert typeList[..n][i] == typeList[i];
      BindBranchesAt(typeList[..n], m, holders, i);
    }
  }

  lemma {:induction false} BindBranchesLength(typeList: seq<string>, m: map<string, string>, holders: seq<ClassDeclaration>)
    requires |typeList| <= |holders|
    ensures |BindBranches(typeList, m, holders)| == |typeList|
    decreases |typeList|
  {
    if typeList != [] {
      BindBranchesLength(typeList[..|typeList| - 1], m, holders);
    }
  }

  // ---------------------------------------------------------------------
  // genFile
  // ---------------------------------------------------------------------

  /**
   * genFile: the subclass `<Name>Impl` of the adapter, in the adapter's
   * package, passing the adapter's constructor parameter names to the
   * superclass, with the tag constants and both dispatch functions. The
   * errors are those of onCreateViewHolder's construction, then those of
   * onBindViewHolder's.
   */
  method GenFile(packageName: string, target: ClassDeclaration, holders: seq<ClassDeclaration>)
    returns (file: FileSpec, errors: seq<string>)
    ensures file.packageName == target.packageName
    ensures file.fileName == target.SimpleName() + "Impl"
    ensures file.typeSpec.name == target.SimpleName() + "Impl"
    ensures file.typeSpec.superclass == ClassNameOf(target)
    ensures file.typeSpec.superclassConstructorParameter == Join(ParameterNames(target.ConstructorParameters()))
    ensures file.typeSpec.constructorParameters == ParameterNames(target.ConstructorParameters())
    ensures |file.typeSpec.companion| == |holders| == |TypeList(holders)|
    ensures forall i :: 0 <= i < |holders| ==>
      file.typeSpec.companion[i] == ConstInt(TypeList(holders)[i], i)
    ensures var m := Grouped(target.ConstructorParameters());
      && file.typeSpec.functions == [CreateDispatch(packageName, TypeList(holders), m, holders), BindDispatch(TypeList(holders), m, holders)]
      && errors == CreateErrors(TypeList(holders), m, holders) + BindErrors(TypeList(holders), m, holders)
  {
    var name := target.SimpleName();
    var implName := name + "Impl";
    var parameters := target.ConstructorParameters();
    var variableMap := GroupByAnnotation(parameters);
    var typeList := TypeList(holders);
    var superclass := ToClassName(target);
    var names := ParameterNames(parameters);
    var companion := GenConstSpec(typeList);
    var create, createErrors := GenCreateViewHolderSpec(packageName, typeList, variableMap, holders);
    var bind, bindErrors := GenOnBindViewHolderSpec(typeList, variableMap, holders);
    file := FileSpec(target.packageName, implName,
      TypeSpec(implName, superclass, Join(names), names, companion, [create, bind]));
    errors := createErrors + bindErrors;
  }
}
