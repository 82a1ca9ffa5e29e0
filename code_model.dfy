/**
 * The generated Kotlin, as data: the KotlinPoet specs the processor builds,
 * with only the parts that depend on the input kept apart from fixed text.
 */
module CodeModel {
  import opened Wrappers

  /** A class name: package plus the simple names from outermost to innermost. */
  datatype ClassName = ClassName(packageName: string, simpleNames: seq<string>)

  /** A type: a bare class name, or a class name applied to type arguments. */
  datatype TypeName =
    | Plain(className: ClassName)
    | Parameterized(rawType: ClassName, typeArguments: seq<TypeName>)
  {
    /** The class the type is built on. */
    function RawType(): ClassName {
      match this
      case Plain(c) => c
      case Parameterized(c, _) => c
    }

    /** The type arguments carried, none for a bare class name. */
    function Arguments(): seq<TypeName> {
      match this
      case Plain(_) => []
      case Parameterized(_, args) => args
    }
  }

  /** `const val <name>: Int = <initializer>` in the companion object. */
  datatype PropertySpec = ConstInt(name: string, initializer: int)

  /** A parameter of a generated function. */
  datatype ParameterSpec = ParameterSpec(name: string, typeName: ClassName)

  datatype Statement =
    /** `val inflater = LayoutInflater.from(parent.context)` */
    | DeclareInflater
    /** `val binding = <bindingClass>.inflate(inflater, parent, false)` */
    | InflateBinding(bindingClass: ClassName)
    /** `<holderClass>(<arguments>)`, the value of a `when` branch */
    | Construct(holderClass: ClassName, arguments: string)
    /** `(holder as <holderName>).<functionName>(<arguments>)` */
    | InvokeBind(holderName: string, functionName: string, arguments: string)

  /** `<tag> -> { <body> }` inside a `when`. */
  datatype Branch = Branch(tag: string, body: seq<Statement>)

  /**
   * An overriding function whose body is `prologue` followed by a `when` over
   * `subject` (returned as the function's value when `returnsWhen`), with the
   * given branches and, if `elseThrows` is Some(m), a final
   * `else -> throw RuntimeException(m)`.
   */
  datatype FunSpec = FunSpec(
    name: string,
    parameters: seq<ParameterSpec>,
    prologue: seq<Statement>,
    returnsWhen: bool,
    subject: string,
    branches: seq<Branch>,
    elseThrows: Option<string>,
    returnType: Option<ClassName>)

  /**
   * The generated class: its name, superclass and the argument text passed
   * to the superclass constructor, its own constructor's parameter names,
   * the constants of its companion object and its functions.
   */
  datatype TypeSpec = TypeSpec(
    name: string,
    superclass: ClassName,
    superclassConstructorParameter: string,
    constructorParameters: seq<string>,
    companion: seq<PropertySpec>,
    functions: seq<FunSpec>)

  /** One generated file: package, file name and the single type in it. */
  datatype FileSpec = FileSpec(packageName: string, fileName: string, typeSpec: TypeSpec)
}
