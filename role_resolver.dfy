/**
 * getHolderParameter and getBindParameter: the argument text for a holder's
 * constructor call or bind call, each parameter resolved through the
 * adapter's annotation map or given the call site's implicit value.
 */
module RoleResolver {
  import opened Wrappers
  import opened Declarations

  /** Where the arguments are used: the constructor call in onCreateViewHolder, or the bind call in onBindViewHolder. */
  datatype Context = CreateContext | BindContext

  /** The value an unannotated parameter receives. */
  function DefaultArgument(ctx: Context): string {
    match ctx
    case CreateContext => "binding"
    case BindContext => "getItem(position)"
  }

  /** The error logged for each unannotated parameter after the first; `name` names the holder or function. */
  function ShortageMessage(ctx: Context, name: string): string {
    match ctx
    case CreateContext => name + " didn't add enough annotations for onCreateViewHolder to bind with"
    case BindContext => name + " don't have enough annotation to bind Adapter"
  }

  /** `firstOrNull(map::containsKey)`, as an index: the first text that is a key of `m`. */
  function FirstKeyIndex(texts: seq<string>, m: map<string, string>): (r: Option<nat>)
    ensures r.Some? ==> r.value < |texts| && texts[r.value] in m
    ensures r.Some? ==> forall j :: 0 <= j < r.value ==> texts[j] !in m
    ensures r.None? ==> forall j :: 0 <= j < |texts| ==> texts[j] !in m
    decreases |texts|
  {
    if texts == [] then None
    else if texts[0] in m then Some(0)
    else match FirstKeyIndex(texts[1..], m)
      case None => None
      case Some(i) => Some(i + 1)
  }

  /** The adapter field a parameter is bound to, if one of its annotations is a key of `m`. */
  function Lookup(p: Parameter, m: map<string, string>): Option<string> {
    var texts := Texts(p.annotations);
    match FirstKeyIndex(texts, m)
    case None => None
    case Some(i) => Some(m[texts[i]])
  }

  /** The argument a parameter receives in context `ctx`. */
  function Argument(ctx: Context, p: Parameter, m: map<string, string>): string {
    Lookup(p, m).GetOr(DefaultArgument(ctx))
  }

  /** The argument list, one per parameter. */
  function Arguments(ctx: Context, ps: seq<Parameter>, m: map<string, string>): seq<string>
    decreases |ps|
  {
    if ps == [] then [] else Arguments(ctx, ps[..|ps| - 1], m) + [Argument(ctx, ps[|ps| - 1], m)]
  }

  /** The number of parameters none of whose annotations is a key of `m`. */
  function UnannotatedCount(ps: seq<Parameter>, m: map<string, string>): nat
    decreases |ps|
  {
    if ps == [] then 0
    else UnannotatedCount(ps[..|ps| - 1], m) + (if Lookup(ps[|ps| - 1], m).None? then 1 else 0)
  }

  /** max(0, u - 1): how many of `u` unannotated parameters are one too many. */
  function Surplus(u: nat): nat {
    if u == 0 then 0 else u - 1
  }

  /** The errors a call logs: one per unannotated parameter after the first. */
  function ShortageErrors(ctx: Context, name: string, ps: seq<Parameter>, m: map<string, string>): seq<string> {
    Repeat(ShortageMessage(ctx, name), Surplus(UnannotatedCount(ps, m)))
  }

  /** Extending the parameter list by one extends the arguments and the count by that parameter's. */
  lemma PrefixStep(ctx: Context, ps: seq<Parameter>, m: map<string, string>, i: nat)
    requires i < |ps|
    ensures Arguments(ctx, ps[..i + 1], m) == Arguments(ctx, ps[..i], m) + [Argument(ctx, ps[i], m)]
    ensures UnannotatedCount(ps[..i + 1], m) == UnannotatedCount(ps[..i], m) + (if Lookup(ps[i], m).None? then 1 else 0)
  {
    assert ps[..i + 1][..i] == ps[..i];
  }

  /**
   * The loop shared by getHolderParameter and getBindParameter: joinToString
   * over the parameters with a counter of unannotated ones, logging an error
   * each time the counter is already positive.
   */
  method ResolveParameters(ctx: Context, name: string, list: seq<Parameter>, m: map<string, string>)
    returns (joined: string, errors: seq<string>)
    ensures joined == Join(Arguments(ctx, list, m))
    ensures errors == ShortageErrors(ctx, name, list, m)
  {
    var noAnnotationCount := 0;
    joined, errors := "", [];
    for i := 0 to |list|
      invariant noAnnotationCount == UnannotatedCount(list[..i], m)
      invariant joined == Join(Arguments(ctx, list[..i], m))
      invariant errors == Repeat(ShortageMessage(ctx, name), Surplus(noAnnotationCount))
    {
      PrefixStep(ctx, list, m, i);
      ghost var done := Arguments(ctx, list[..i], m);
      ArgumentsLength(ctx, list[..i], m);
      var result := Lookup(list[i], m);
      var arg: string;
      if result.Some? {
        arg := result.value;
      } else {
        if noAnnotationCount > 0 {
          RepeatAppend(ShortageMessage(ctx, name), noAnnotationCount - 1);
          errors := errors + [ShortageMessage(ctx, name)];
        }
        noAnnotationCount := noAnnotationCount + 1;
        arg := DefaultArgument(ctx);
      }
      JoinAppend(done, arg);
      joined := if i == 0 then arg else joined + ", " + arg;
    }
    assert list[..|list|] == list;
  }

  /** getHolderParameter: constructor arguments, "binding" for the unannotated parameter. */
  method GetHolderParameter(name: string, list: seq<Parameter>, m: map<string, string>)
    returns (joined: string, errors: seq<string>)
    ensures joined == Join(Arguments(CreateContext, list, m))
    ensures errors == ShortageErrors(CreateContext, name, list, m)
  {
    joined, errors := ResolveParameters(CreateContext, name, list, m);
  }

  /** getBindParameter: bind-call arguments, "getItem(position)" for the unannotated parameter. */
  method GetBindParameter(name: string, list: seq<Parameter>, m: map<string, string>)
    returns (joined: string, errors: seq<string>)
    ensures joined == Join(Arguments(BindContext, list, m))
    ensures errors == ShortageErrors(BindContext, name, list, m)
  {
    joined, errors := ResolveParameters(BindContext, name, list, m);
  }

  /**
   * One argument per parameter, in parameter order. A parameter resolves to
   * m[k] for the first of its annotation texts k that is a key of `m`, and to
   * the context's default when none is.
   */
  lemma {:induction false} ArgumentsAt(ctx: Context, ps: seq<Parameter>, m: map<string, string>, i: nat)
    requires i < |ps|
    ensures |Arguments(ctx, ps, m)| == |ps|
    ensures var texts := Texts(ps[i].annotations);
      && (forall k :: 0 <= k < |texts| && texts[k] in m && (forall j :: 0 <= j < k ==> texts[j] !in m) ==>
            Arguments(ctx, ps, m)[i] == m[texts[k]])
      && ((forall k :: 0 <= k < |texts| ==> texts[k] !in m) ==> Arguments(ctx, ps, m)[i] == DefaultArgument(ctx))
    decreases |ps|
  {
    var n := |ps| - 1;
    if n > 0 {
      ArgumentsLength(ctx, ps[..n], m);
    }
    if i < n {
      assert ps[..n][i] == ps[i];
      ArgumentsAt(ctx, ps[..n], m, i);
    } else {
      var texts := Texts(ps[i].annotations);
      var r := FirstKeyIndex(texts, m);
      forall k | 0 <= k < |texts| && texts[k] in m && (forall j :: 0 <= j < k ==> texts[j] !in m)
        ensures r == Some(k)
      {
      }
    }
  }

  lemma {:induction false} ArgumentsLength(ctx: Context, ps: seq<Parameter>, m: map<string, string>)
    ensures |Arguments(ctx, ps, m)| == |ps|
    decreases |ps|
  {
    if ps != [] {
      ArgumentsLength(ctx, ps[..|ps| - 1], m);
    }
  }

}
