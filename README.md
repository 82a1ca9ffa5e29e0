# BindsAdapter generator, modelled in Dafny

BindsAdapter is a Kotlin symbol processor. Given an abstract `RecyclerView`
adapter annotated `@BindAdapter([Holder1::class, ...])`, it generates
`<Adapter>Impl`, a subclass with three parts:

- a companion object with one `Int` constant per view holder (`TYPE_...`);
- `onCreateViewHolder`, a `when` over the view type that constructs the right
  holder;
- `onBindViewHolder`, a `when` that calls the holder's function marked
  `@BindFunction`.

Each holder parameter is resolved through the annotations on the adapter's
own constructor parameters. A parameter whose annotation also sits on an
adapter parameter receives that adapter field. An unannotated parameter
receives the implicit value of its call site: the inflated view `binding` in
`onCreateViewHolder`, `getItem(position)` in `onBindViewHolder`.

The model keeps the generator's logic and replaces KSP symbols and KotlinPoet
builders with plain datatypes:

- `Declarations`: the input records (parameters, functions, classes, the
  declaration tree).
- `CodeModel`: the generated code as data (class names, statements, `when`
  branches, functions, the generated type and file).
- `Extensions`: the helpers of Extensions.kt.
- `TagNamer`: the constant names (`getTypeList`).
- `RoleResolver`: argument resolution (`getHolderParameter`,
  `getBindParameter`).
- `BuilderProcessor`: the constant table, both dispatch functions and
  `genFile`.
- `SampleApp`: the sample app's adapter and holders as concrete inputs.

The source's imperative loops are methods with loops in the model. These are:
- the nested `forEach` that fills the annotation map;
- the `while` loop with a `break` that builds the name list;
- the `joinToString` lambdas that count unannotated parameters;
- the `forEachIndexed`/`mapIndexed` builders of the constant table and the
  dispatch branches.

Each method's `ensures` ties its result to a specification function, and the
lemmas state what those functions mean. The source's pure collection chains
are recursive functions or plain expressions, not loops:
- the `map`/`joinToString` chain of `getTypeList` is `TypeList` and `Segments`;
- the `firstOrNull` searches are `FirstKeyIndex` and `FirstBindFunction`;
- the `any` test is an existential in `IsBindFunction`;
- the `joinToString` of the superclass arguments in `genFile` is
  `Join(ParameterNames(..))`.

`logger.error` is modelled as a returned sequence of messages. The caller
concatenates them in the order the source logs them.

Where the code and its documentation disagree, the model follows the code:

- `MyViewHolder1` becomes `TYPE_MY_VIEW_HOLDER1`. Every capital gets its own
  `_`, which the sample adapter relies on.
- A holder with several `@BindFunction` functions is not rejected. The first
  one is used.
- One error is logged for each unannotated parameter after the first, not
  one per parameter list.
- A missing bind function gives one error and an empty branch.

## Model

| member | source | states |
|---|---|---|
| Extensions.GroupByAnnotation | processor/src/main/java/com/jintin/bindsadapter/processor/Extensions.kt:32-40 | the nested loops build exactly the map `Grouped`: for each parameter in order, each annotation text is set to the parameter's name ("" if it has none) |
| Extensions.AssignAllAt | processor/src/main/java/com/jintin/bindsadapter/processor/Extensions.kt:35-37 | after the inner loop, each of the parameter's annotation texts maps to its name, and every other key keeps its earlier value |
| Extensions.GroupedKeys | processor/src/main/java/com/jintin/bindsadapter/processor/Extensions.kt:34-38 | a string is a key if and only if it is an annotation text of some parameter (both directions) |
| Extensions.GroupedLastWins | processor/src/main/java/com/jintin/bindsadapter/processor/Extensions.kt:34-37 | when several parameters carry the same annotation text, the value is the name of the last one |
| Extensions.LastCarrier | processor/src/main/java/com/jintin/bindsadapter/processor/Extensions.kt:34-37 | every key has a last parameter carrying it; together with GroupedLastWins, every value comes from that parameter |
| Extensions.GroupedSkipsUnannotated | processor/src/main/java/com/jintin/bindsadapter/processor/Extensions.kt:34-38 | inserting a parameter without annotations anywhere adds no key and changes no value |
| Extensions.GroupedSize | processor/src/main/java/com/jintin/bindsadapter/processor/Extensions.kt:34-38 | the map never has more keys than there are annotations over all parameters |
| Extensions.AsNameList | processor/src/main/java/com/jintin/bindsadapter/processor/Extensions.kt:52-63 | the prepend-and-walk loop with its early break returns exactly `NameList(d)` |
| Extensions.NameListWalk | processor/src/main/java/com/jintin/bindsadapter/processor/Extensions.kt:53-61 | the list is non-empty and ends with the receiver's own name; entry n-1-k is the name of the k-th ancestor, so names run outermost first; no visited declaration before the last is a type parameter; the last visited one is a type parameter or the root; so the length is the number of declarations visited |
| Extensions.ToClassName | processor/src/main/java/com/jintin/bindsadapter/processor/Extensions.kt:45-47 | a declaration's class name is its package plus the result of asNameList |
| Extensions.AsParameterized | processor/src/main/java/com/jintin/bindsadapter/processor/Extensions.kt:68-74 | the raw type is always the receiver; the type arguments are exactly the given list, or none when it is null; the result is the bare class name if and only if the list is null or empty |
| TagNamer.TypeList | processor/src/main/java/com/jintin/bindsadapter/processor/BuilderProcessor.kt:218-227 | the tag list has one entry per holder |
| TagNamer.TypeListAt | processor/src/main/java/com/jintin/bindsadapter/processor/BuilderProcessor.kt:218-227 | entry i is the tag name of holder i's simple name alone |
| TagNamer.SegmentsAt | processor/src/main/java/com/jintin/bindsadapter/processor/BuilderProcessor.kt:220-226 | character i of the name appears, in order, as its own segment: `_` plus the letter for 'A'..'Z', otherwise the upper-cased character |
| TagNamer.SegmentsAppend | processor/src/main/java/com/jintin/bindsadapter/processor/BuilderProcessor.kt:220-226 | the names of a concatenation are the concatenation of the names: each character is rendered on its own, with no context |
| TagNamer.TagNameLength | processor/src/main/java/com/jintin/bindsadapter/processor/BuilderProcessor.kt:220-226 | a tag name is 4 + (name length) + (number of capitals) characters long |
| TagNamer.TagNameShape | processor/src/main/java/com/jintin/bindsadapter/processor/BuilderProcessor.kt:226 | every tag name starts with "TYPE" and contains no lower-case ASCII letter |
| TagNamer.SegmentsReadBack | processor/src/main/java/com/jintin/bindsadapter/processor/BuilderProcessor.kt:220-226 | for a name without `_`, removing the underscores from its segments gives the name in upper case |
| TagNamer.TagNamesCanCollide | processor/src/main/java/com/jintin/bindsadapter/processor/BuilderProcessor.kt:218-227 | two different names (`AB`, `A_b`) give the same tag: nothing detects such a collision |
| RoleResolver.FirstKeyIndex | processor/src/main/java/com/jintin/bindsadapter/processor/BuilderProcessor.kt:175-177 | firstOrNull over the annotation texts: the index found is the first text that is a key of the map; none is found exactly when no text is a key |
| RoleResolver.ResolveParameters | processor/src/main/java/com/jintin/bindsadapter/processor/BuilderProcessor.kt:173-187 | the joinToString loop with its local counter returns the arguments joined by ", ". With u unannotated parameters it logs exactly max(0, u-1) copies of the shortage message, and the text is produced either way |
| RoleResolver.GetHolderParameter | processor/src/main/java/com/jintin/bindsadapter/processor/BuilderProcessor.kt:193-213 | constructor arguments: the default is "binding", and the create-side error message is used |
| RoleResolver.GetBindParameter | processor/src/main/java/com/jintin/bindsadapter/processor/BuilderProcessor.kt:168-188 | bind arguments: the default is "getItem(position)", and the bind-side error message is used |
| RoleResolver.ArgumentsAt | processor/src/main/java/com/jintin/bindsadapter/processor/BuilderProcessor.kt:174-187 | one argument per parameter, in parameter order. A parameter resolves to m[k] for the first of its annotation texts k that is a key, and to the context's default when none is |
| BuilderProcessor.GenConstSpec | processor/src/main/java/com/jintin/bindsadapter/processor/BuilderProcessor.kt:42-51 | one constant per tag name; the constant named typeList[i] has value i; the values are pairwise distinct and are exactly 0..N-1 |
| BuilderProcessor.GenCreateViewHolderSpec | processor/src/main/java/com/jintin/bindsadapter/processor/BuilderProcessor.kt:56-95 | the loops build exactly `CreateDispatch`, and the errors are the holders' constructor-resolution errors in holder order |
| BuilderProcessor.CreateBranchesAt | processor/src/main/java/com/jintin/bindsadapter/processor/BuilderProcessor.kt:67-91 | one branch per tag, in order; branch i is tagged typeList[i]; its body is one inflate per unresolved constructor parameter of holder i, then the call of holder i's constructor with the resolved arguments |
| BuilderProcessor.InflatesCount | processor/src/main/java/com/jintin/bindsadapter/processor/BuilderProcessor.kt:71-78 | there are exactly as many inflate statements as unresolved parameters, each naming a class in `<package>.databinding` |
| BuilderProcessor.InflatesNames | processor/src/main/java/com/jintin/bindsadapter/processor/BuilderProcessor.kt:71-78 | a statement is an inflate exactly when some unresolved parameter's own type, placed in `<package>.databinding`, is the class it names |
| BuilderProcessor.FirstBindFunction | processor/src/main/java/com/jintin/bindsadapter/processor/BuilderProcessor.kt:114-116 | the function chosen is the first declared one with an annotation named BindFunction; none is chosen exactly when no function has one |
| BuilderProcessor.GenOnBindViewHolderSpec | processor/src/main/java/com/jintin/bindsadapter/processor/BuilderProcessor.kt:100-134 | the loop builds exactly `BindDispatch`, and the errors are, per holder in order, the missing-bind-function error or the bind-resolution errors |
| BuilderProcessor.BindBranchShape | processor/src/main/java/com/jintin/bindsadapter/processor/BuilderProcessor.kt:110-131 | without a BindFunction the branch is empty and exactly one error names the holder. Otherwise the branch is `(holder as H).f(args)` for the first marked f, with args from getBindParameter |
| BuilderProcessor.BindBranchesAt | processor/src/main/java/com/jintin/bindsadapter/processor/BuilderProcessor.kt:110-131 | one bind branch per tag, in order; branch i is holder i's bind branch tagged typeList[i] |
| BuilderProcessor.GenFile | processor/src/main/java/com/jintin/bindsadapter/processor/BuilderProcessor.kt:139-163 | the generated class and file are named name + "Impl" in the adapter's package; the superclass is the adapter; the superclass arguments are the adapter's parameter names joined by ", "; it holds the constant table over the tag list and both dispatch functions over the grouped map; the errors are the create errors, then the bind errors |
| SampleApp.AdapterMap | app/src/main/java/com/jintin/bindsadapter/MyAdapter.kt:8-13 | the sample adapter's map binds `@BindPrefix`, `@BindSufix`, `@ComplexType` and `@BindListener` to prefix, sufix, complexObj and listener |
| SampleApp.SampleTagNames | app/src/main/java/com/jintin/bindsadapter/MyAdapter.kt:16-22 | the holders' constants are TYPE_MY_VIEW_HOLDER1 and TYPE_MY_VIEW_HOLDER2, the names the sample adapter uses |
| SampleApp.SampleHolder1Arguments | app/src/main/java/com/jintin/bindsadapter/MyViewHolder1.kt:6-12 | MyViewHolder1 is built with `binding, prefix` and bound with `getItem(position), listener`, with no error |
| SampleApp.SampleHolder2Arguments | app/src/main/java/com/jintin/bindsadapter/MyViewHolder2.kt:6-12 | MyViewHolder2 is built with `listener, binding` and bound with `sufix, getItem(position)`, with no error |

## Left out

- `process` and `getAdapters`: these query the KSP resolver, run `validate` and cast the annotation argument. The model takes the adapter and its list of holders as inputs instead.
- `CodeGenerator.writeFile` is file I/O. `BuilderProcessorProvider` only reads the `package` option, which is a parameter of the model.
- KotlinPoet rendering is not modelled: `%T` substitution, imports, formatting and the `const`/`override` modifiers. Generated code is kept as datatypes, not as Kotlin text.
- Type resolution is left out: `toParameterSpec`, `KSTypeArgument.toClassName` and `type.resolve().isError`.
  - Each parameter instead carries an `unresolved` flag and its type text.
  - The generated constructor keeps only its parameter names, not their types or nullability.
- `KSAnnotation.toString()` is not modelled. Each annotation carries the text it renders to as an input, and that text is the map key. `shortName` is kept apart for the BindFunction test.
- The holder in the missing-bind-function message is printed through KSP's `toString`. The model uses the holder's simple name for it.
- `TagNamer.UpperCase`: `Char.uppercase()` is modelled on ASCII only. Other characters are kept unchanged, whereas Kotlin's Unicode case mapping can change them, or even their length (ß).
- `BuilderProcessor.GenCreateViewHolderSpec`, `BuilderProcessor.GenOnBindViewHolderSpec`: both require at least as many holders as tags, because the source indexes `holders[index]`. `genFile` always passes equal lengths.
- The concurrency and caching of the host build are not part of the generator and are not modelled.
