/** `ValueParameterReflection`: the single parameter of a generated setter. */
module ParameterReflection {
  import opened Wrappers
  import opened PhpStanTypes

  /** `PassedByReference`: how an argument is passed. */
  datatype PassedByReference = NotByReference | ReadsArgument | CreatesNewVariable

  /** An immutable record over the type it was constructed with. */
  datatype ValueParameterReflection = ValueParameterReflection(offsetType: Type)
  {
    function GetName(): string { "value" }

    function IsOptional(): bool { false }

    function GetType(): Type { offsetType }

    function GetPassedByReference(): PassedByReference { NotByReference }

    function IsVariadic(): bool { false }

    function GetDefaultValue(): Option<Type> { None }
  }

  /**
   * Whatever type it is built with, the parameter is a plain required
   * by-value parameter named `value` of exactly that type.
   */
  lemma ValueParameterSignature(t: Type)
    ensures var p := ValueParameterReflection(t);
      && p.GetName() == "value"
      && p.GetType() == t
      && !p.IsOptional()
      && !p.IsVariadic()
      && p.GetDefaultValue() == None
      && p.GetPassedByReference() == NotByReference
  {
  }
}
