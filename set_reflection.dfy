/** `SetMethodReflection`: the descriptor of a generated setter `set<Field>(value): void`. */
module SetReflection {
  import opened Wrappers
  import opened PhpStrings
  import opened NameGrammar
  import opened PhpStanTypes
  import opened ParameterReflection

  /** `FunctionVariant`: template maps, parameters, variadicity and return type of one signature. */
  datatype FunctionVariant = FunctionVariant(
    templateTypeMap: TemplateTypeMap,
    resolvedTemplateTypeMap: TemplateTypeMap,
    parameters: seq<ValueParameterReflection>,
    isVariadic: bool,
    returnType: Type)

  /** An immutable record of the three constructor-promoted fields. */
  datatype SetMethodReflection = SetMethodReflection(declaringClass: ClassReflection, offsetName: string, offsetType: Type)
  {
    function GetDeclaringClass(): ClassReflection { declaringClass }

    function IsStatic(): bool { false }

    function IsPrivate(): bool { false }

    function IsPublic(): bool { true }

    function GetDocComment(): Option<string> { None }

    /** `'set' . ucfirst(offsetName)`: "set" followed by the field, only its first character possibly changed. */
    function GetName(): (name: string)
      ensures |name| == 3 + |offsetName| && name[..3] == "set"
      ensures |offsetName| > 0 ==> !IsAsciiLower(name[3])
      ensures forall i :: 4 <= i < |name| ==> name[i] == offsetName[i - 3]
    {
      "set" + UcFirst(offsetName)
    }

    function GetPrototype(): SetMethodReflection { this }

    /** One variant: a single `value` parameter of the field's type, not variadic, returning void. */
    function GetVariants(): (variants: seq<FunctionVariant>)
      ensures |variants| == 1
      ensures |variants[0].parameters| == 1
      ensures variants[0].parameters[0].GetType() == offsetType
      ensures !variants[0].isVariadic && variants[0].returnType == VoidType
    {
      [FunctionVariant(map[], map[], [ValueParameterReflection(offsetType)], false, VoidType)]
    }

    function IsDeprecated(): TrinaryLogic { No }

    function GetDeprecatedDescription(): Option<string> { None }

    function IsFinal(): TrinaryLogic { No }

    function IsInternal(): TrinaryLogic { No }

    function GetThrowType(): Option<Type> { None }

    function HasSideEffects(): TrinaryLogic { Yes }
  }

  /**
   * The setter's name is read back by the grammar as the `set` verb with
   * offset `ucfirst(offsetName)`, and leads back to the field exactly when
   * the field does not start with an upper-case letter.
   */
  lemma SetNameParsesBack(r: SetMethodReflection)
    requires '\n' !in r.offsetName
    ensures ParseMethodName(r.GetName()) == Some(Match(Set, UcFirst(r.offsetName)))
    ensures TargetField(ParseMethodName(r.GetName()).value) == r.offsetName
        <==> r.offsetName == [] || !IsAsciiUpper(r.offsetName[0])
  {
    var offset := UcFirst(r.offsetName);
    if r.offsetName != [] {
      assert offset == [offset[0]] + r.offsetName[1..];
    }
    assert '\n' !in offset;
    ParseVerbAndOffset(Set, offset);
    LcFirstOfUcFirst(r.offsetName);
  }

  /** A public instance method, with side effects, neither deprecated, final nor internal, declared by the class it was built for. */
  lemma SetMethodFlags(r: SetMethodReflection)
    ensures r.IsPublic() && !r.IsPrivate() && !r.IsStatic()
    ensures r.HasSideEffects() == Yes
    ensures r.IsDeprecated() == No && r.GetDeprecatedDescription() == None
    ensures r.IsFinal() == No && r.IsInternal() == No
    ensures r.GetThrowType() == None && r.GetDocComment() == None
    ensures r.GetPrototype() == r && r.GetDeclaringClass() == r.declaringClass
  {
  }

  /** The one parameter of the one variant is a required by-value `value` of the field's type. */
  lemma SetMethodParameter(r: SetMethodReflection)
    ensures var p := r.GetVariants()[0].parameters[0];
      && p.GetName() == "value" && p.GetType() == r.offsetType
      && !p.IsOptional() && !p.IsVariadic()
      && p.GetDefaultValue() == None && p.GetPassedByReference() == NotByReference
  {
    ValueParameterSignature(r.offsetType);
  }
}
