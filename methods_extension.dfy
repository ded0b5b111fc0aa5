/**
 * `ArrayWrapperMethodsClassReflectionExtension`: tells the type checker which
 * verb-named methods a wrapper of a known array shape has, and describes them.
 */
module MethodsExtension {
  import opened Wrappers
  import opened PhpStrings
  import opened PhpExceptions
  import opened NameGrammar
  import opened PhpStanTypes
  import opened SetReflection

  /**
   * The method reflections `getMethod` builds. Only the setter's class is part
   * of this model; the other three are tags carrying what they are built from.
   */
  datatype MethodReflection =
    | GetMethodDescriptor(declaringClass: ClassReflection, offsetName: string, offsetType: Type)
    | HasMethodDescriptor(declaringClass: ClassReflection, offsetName: string)
    | SetMethodDescriptor(reflection: SetMethodReflection)
    | UnsetMethodDescriptor(declaringClass: ClassReflection, offsetName: string)
  {
    function OffsetName(): string
    {
      match this
      case GetMethodDescriptor(_, offsetName, _) => offsetName
      case HasMethodDescriptor(_, offsetName) => offsetName
      case SetMethodDescriptor(reflection) => reflection.offsetName
      case UnsetMethodDescriptor(_, offsetName) => offsetName
    }

    function Operation(): FieldOperation
    {
      match this
      case GetMethodDescriptor(_, _, _) => Read
      case HasMethodDescriptor(_, _) => Exists
      case SetMethodDescriptor(_) => Write
      case UnsetMethodDescriptor(_, _) => Remove
    }

    /**
     * The type a call evaluates to: the field's type for a getter, bool for
     * has/is (as the extension's type test asserts), void for the setter's
     * variant; the unsetter's is not part of this model.
     */
    function CallType(): Option<Type>
    {
      match this
      case GetMethodDescriptor(_, _, offsetType) => Some(offsetType)
      case HasMethodDescriptor(_, _) => Some(BoolType)
      case SetMethodDescriptor(reflection) => Some(reflection.GetVariants()[0].returnType)
      case UnsetMethodDescriptor(_, _) => None
    }
  }

  /** `getMethod`'s only exception: an `InvalidArgumentException` without a message. */
  const NoSuchMethod: Exception := InvalidArgument("")

  /**
   * The constant array shape bound to `TInnerArray` on the class's ArrayWrapper
   * ancestor; None when there is no ancestor, no binding, or the binding is not
   * a constant array.
   */
  function InnerArrayShape(c: ClassReflection): Option<map<string, ArrayItem>>
  {
    match c.arrayWrapperAncestor
    case None => None
    case Some(templateTypes) =>
      if InnerArrayParameter !in templateTypes then None
      else match templateTypes[InnerArrayParameter]
        case ConstantArrayType(items) => Some(items)
        case _ => None
  }

  /**
   * `hasMethod`: the name matches the grammar and its field is a definitely
   * present (non-optional) key of the wrapper's constant array shape.
   */
  function HasMethod(c: ClassReflection, methodName: string): (r: bool)
    ensures r ==>
      && c.arrayWrapperAncestor.Some?
      && InnerArrayParameter in c.arrayWrapperAncestor.value
      && c.arrayWrapperAncestor.value[InnerArrayParameter].ConstantArrayType?
    ensures r <==>
      && ParseMethodName(methodName).Some?
      && InnerArrayShape(c).Some?
      && var field := TargetField(ParseMethodName(methodName).value);
         field in InnerArrayShape(c).value && !InnerArrayShape(c).value[field].optional
  {
    match InnerArrayShape(c)
    case None => false
    case Some(items) =>
      match ParseMethodName(methodName)
      case None => false
      case Some(parsed) => HasOffsetValueType(items, LcFirst(parsed.offset)) == Yes
  }

  /**
   * `getMethod`: throws exactly when `hasMethod` is false; otherwise builds the
   * descriptor for the verb, carrying the field and, for get and set, the
   * field's type in the shape.
   */
  function GetMethod(c: ClassReflection, methodName: string): (r: Result<MethodReflection, Exception>)
    ensures r.Success? <==> HasMethod(c, methodName)
    ensures r.Failure? ==> r.error == NoSuchMethod
  {
    match InnerArrayShape(c)
    case None => Failure(NoSuchMethod)
    case Some(items) =>
      match ParseMethodName(methodName)
      case None => Failure(NoSuchMethod)
      case Some(parsed) =>
        var offset := LcFirst(parsed.offset);
        if HasOffsetValueType(items, offset) != Yes then Failure(NoSuchMethod)
        else
          // The five verbs are all the `method` group can hold, so the
          // trailing throw after the verb comparisons is never reached.
          match parsed.verb
          case Get => Success(GetMethodDescriptor(c, offset, GetOffsetValueType(items, offset)))
          case Has => Success(HasMethodDescriptor(c, offset))
          case Is => Success(HasMethodDescriptor(c, offset))
          case Set => Success(SetMethodDescriptor(SetMethodReflection(c, offset, GetOffsetValueType(items, offset))))
          case Unset => Success(UnsetMethodDescriptor(c, offset))
  }

  /**
   * A descriptor from `getMethod` targets the field the name's offset group
   * addresses, performs the verb's operation, and for get and set carries the
   * shape's type for that field.
   */
  lemma GetMethodDescribesField(c: ClassReflection, methodName: string)
    requires GetMethod(c, methodName).Success?
    ensures var d := GetMethod(c, methodName).value;
      var parsed := ParseMethodName(methodName).value;
      var field := TargetField(parsed);
      var items := InnerArrayShape(c).value;
      && field in items && !items[field].optional
      && d.OffsetName() == field
      && d.Operation() == NameGrammar.Operation(parsed.verb)
      && (d.GetMethodDescriptor? ==> d == GetMethodDescriptor(c, field, items[field].valueType))
      && (d.HasMethodDescriptor? ==> d == HasMethodDescriptor(c, field))
      && (d.SetMethodDescriptor? ==> d == SetMethodDescriptor(SetMethodReflection(c, field, items[field].valueType)))
      && (d.UnsetMethodDescriptor? ==> d == UnsetMethodDescriptor(c, field))
  {
  }

  /** A name outside the grammar is no method of any class. */
  lemma UnknownNameHasNoMethod(c: ClassReflection, methodName: string)
    requires ParseMethodName(methodName).None?
    ensures !HasMethod(c, methodName) && GetMethod(c, methodName) == Failure(NoSuchMethod)
  {
  }

  /**
   * Setter name round trip: when a line-feed-free name `set<S>` is a method,
   * its descriptor reports the very name that was asked for, provided S does
   * not start lower-case.
   */
  lemma SetNameRoundTrip(c: ClassReflection, name: string)
    requires HasMethod(c, name) && '\n' !in name
    requires ParseMethodName(name).value.verb == Set
    requires var s := ParseMethodName(name).value.offset; s == [] || !IsAsciiLower(s[0])
    ensures GetMethod(c, name).Success?
    ensures GetMethod(c, name).value.SetMethodDescriptor?
    ensures GetMethod(c, name).value.reflection.GetName() == name
  {
    var s := ParseMethodName(name).value.offset;
    if name == "set" + s + "\n" {
      assert false;
    }
    GetMethodDescribesField(c, name);
    UcFirstOfLcFirst(s);
  }

  /**
   * Field round trip: for a definitely present field that does not start
   * upper-case, the setter named after it is a method whose descriptor
   * targets that field with the shape's type.
   */
  lemma FieldSetterRoundTrip(c: ClassReflection, field: string)
    requires InnerArrayShape(c).Some?
    requires HasOffsetValueType(InnerArrayShape(c).value, field) == Yes
    requires '\n' !in field && (field == [] || !IsAsciiUpper(field[0]))
    ensures var name := SetMethodReflection(c, field, GetOffsetValueType(InnerArrayShape(c).value, field)).GetName();
      && HasMethod(c, name)
      && GetMethod(c, name) == Success(SetMethodDescriptor(SetMethodReflection(c, field, GetOffsetValueType(InnerArrayShape(c).value, field))))
  {
    var reflection := SetMethodReflection(c, field, GetOffsetValueType(InnerArrayShape(c).value, field));
    SetNameParsesBack(reflection);
  }

  /** What a call of the verb on a definitely present field of type t evaluates to. */
  function VerbCallType(v: Verb, t: Type): Option<Type>
  {
    match v
    case Get => Some(t)
    case Has => Some(BoolType)
    case Is => Some(BoolType)
    case Set => Some(VoidType)
    case Unset => None
  }

  /**
   * For a definitely present field of type t, every verb names a method: the
   * getter is typed t, the has/is queries bool and the setter void.
   */
  lemma CallTypeOfPresentField(c: ClassReflection, name: string, t: Type)
    requires ParseMethodName(name).Some? && InnerArrayShape(c).Some?
    requires var items := InnerArrayShape(c).value;
      var field := TargetField(ParseMethodName(name).value);
      field in items && items[field] == ArrayItem(t, false)
    ensures HasMethod(c, name)
    ensures GetMethod(c, name).value.CallType() == VerbCallType(ParseMethodName(name).value.verb, t)
  {
    GetMethodDescribesField(c, name);
  }

  /** The wrapper of the extension's type test, `ArrayWrapper<array{foo: string}>`. */
  predicate WrapsFooString(c: ClassReflection)
  {
    c.arrayWrapperAncestor == Some(map[InnerArrayParameter := ConstantArrayType(map["foo" := ArrayItem(StringType, false)])])
  }

  /** The extension's type test: on `array{foo: string}`, getFoo() is string. */
  lemma FooGetterIsString(c: ClassReflection)
    requires WrapsFooString(c)
    ensures HasMethod(c, "getFoo") && GetMethod(c, "getFoo").value.CallType() == Some(StringType)
  {
    assert InnerArrayShape(c) == Some(map["foo" := ArrayItem(StringType, false)]);
    assert LcFirst("Foo") == "foo";
    ParseVerbAndOffset(Get, "Foo");
    assert "getFoo" == VerbText(Get) + "Foo";
    CallTypeOfPresentField(c, "getFoo", StringType);
  }

  /** The extension's type test: on `array{foo: string}`, isFoo() is bool. */
  lemma FooIsQueryIsBool(c: ClassReflection)
    requires WrapsFooString(c)
    ensures HasMethod(c, "isFoo") && GetMethod(c, "isFoo").value.CallType() == Some(BoolType)
  {
    assert InnerArrayShape(c) == Some(map["foo" := ArrayItem(StringType, false)]);
    assert LcFirst("Foo") == "foo";
    ParseVerbAndOffset(Is, "Foo");
    assert "isFoo" == VerbText(Is) + "Foo";
    CallTypeOfPresentField(c, "isFoo", StringType);
  }

  /** The extension's type test: on `array{foo: string}`, hasFoo() is bool. */
  lemma FooHasQueryIsBool(c: ClassReflection)
    requires WrapsFooString(c)
    ensures HasMethod(c, "hasFoo") && GetMethod(c, "hasFoo").value.CallType() == Some(BoolType)
  {
    assert InnerArrayShape(c) == Some(map["foo" := ArrayItem(StringType, false)]);
    assert LcFirst("Foo") == "foo";
    ParseVerbAndOffset(Has, "Foo");
    assert "hasFoo" == VerbText(Has) + "Foo";
    CallTypeOfPresentField(c, "hasFoo", StringType);
  }

  /** On `array{foo: string}`, getBar is no method: its field is not in the shape. */
  lemma BarIsNoMethod(c: ClassReflection)
    requires WrapsFooString(c)
    ensures !HasMethod(c, "getBar") && GetMethod(c, "getBar") == Failure(NoSuchMethod)
  {
    assert InnerArrayShape(c) == Some(map["foo" := ArrayItem(StringType, false)]);
    assert LcFirst("Bar") == "bar";
    ParseVerbAndOffset(Get, "Bar");
    assert "getBar" == "get" + "Bar";
  }
}
