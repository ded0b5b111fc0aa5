/**
 * The runtime dispatcher (`__call`) and the static extension (`hasMethod` /
 * `getMethod`) read method names with the same grammar; these lemmas state
 * where their answers meet.
 */
module Agreement {
  import opened Wrappers
  import opened PhpStrings
  import opened NameGrammar
  import opened PhpExceptions
  import opened Runtime
  import opened PhpStanTypes
  import opened SetReflection
  import opened MethodsExtension

  /** A method the extension accepts never makes `__call` throw BadMethodCall, on any array. */
  lemma StaticMethodIsNeverUndefined<V>(c: ClassReflection, name: string, m: map<string, V>, arguments: seq<V>)
    requires HasMethod(c, name) && CallArgumentsSuffice(name, arguments)
    ensures !(Dispatch(m, name, arguments).result.Failure? && Dispatch(m, name, arguments).result.error.BadMethodCall?)
  {
  }

  /** A name `__call` rejects as undefined is no method of any class for the extension. */
  lemma UndefinedAtRuntimeIsUnknownStatically<V>(c: ClassReflection, name: string, m: map<string, V>, arguments: seq<V>)
    requires CallArgumentsSuffice(name, arguments)
    requires Dispatch(m, name, arguments).result.Failure? && Dispatch(m, name, arguments).result.error.BadMethodCall?
    ensures !HasMethod(c, name) && GetMethod(c, name) == Failure(NoSuchMethod)
  {
    UnknownNameHasNoMethod(c, name);
  }

  /**
   * The descriptor predicts the call: same field, same operation. A getter
   * yields the stored value or throws "Missing item"; a has/is query yields
   * presence; the setter stores its first argument; the unsetter removes the
   * key; only set and unset change the array.
   */
  lemma DescriptorPredictsCall<V>(c: ClassReflection, name: string, m: map<string, V>, arguments: seq<V>)
    requires GetMethod(c, name).Success? && CallArgumentsSuffice(name, arguments)
    ensures var d := GetMethod(c, name).value;
      var f := d.OffsetName();
      var o := Dispatch(m, name, arguments);
      && (d.GetMethodDescriptor? ==>
            o == Outcome(if f in m then Success(Value(m[f])) else Failure(InvalidArgument(MissingItemMessage(f))), m))
      && (d.HasMethodDescriptor? ==> o == Outcome(Success(Bool(f in m)), m))
      && (d.SetMethodDescriptor? ==> o == Outcome(Success(Null), m[f := arguments[0]]))
      && (d.UnsetMethodDescriptor? ==> o == Outcome(Success(Null), m - {f}))
  {
    GetMethodDescribesField(c, name);
  }

  /** The array holds every definitely present key of the shape. */
  predicate HoldsRequiredKeys<V>(m: map<string, V>, items: map<string, ArrayItem>)
  {
    forall k :: k in items && !items[k].optional ==> k in m
  }

  /** On an array that holds every definitely present key, a statically known getter returns the stored value. */
  lemma StaticGetterSucceeds<V>(c: ClassReflection, name: string, m: map<string, V>)
    requires GetMethod(c, name).Success? && GetMethod(c, name).value.GetMethodDescriptor?
    requires HoldsRequiredKeys(m, InnerArrayShape(c).value)
    ensures var f := GetMethod(c, name).value.OffsetName();
      f in m && Dispatch(m, name, []).result == Success(Value(m[f]))
  {
    GetMethodDescribesField(c, name);
    DescriptorPredictsCall(c, name, m, []);
  }

  /**
   * Where the two diverge: the extension offers `unset<Offset>` for a
   * definitely present key but keeps offering the getter, which then throws
   * at runtime although it was statically typed as the field's type.
   */
  lemma UnsetThenStaticGetterThrows<V>(c: ClassReflection, offset: string, unsetName: string, getName: string, m: map<string, V>)
    requires InnerArrayShape(c).Some? && HasOffsetValueType(InnerArrayShape(c).value, LcFirst(offset)) == Yes
    requires ParseMethodName(unsetName) == Some(Match(Unset, offset))
    requires ParseMethodName(getName) == Some(Match(Get, offset))
    ensures var after := Dispatch(m, unsetName, []).items;
      && HasMethod(c, unsetName)
      && HasMethod(c, getName)
      && GetMethod(c, getName).value.GetMethodDescriptor?
      && !HoldsRequiredKeys(after, InnerArrayShape(c).value)
      && Dispatch(after, getName, []).result == Failure(InvalidArgument(MissingItemMessage(LcFirst(offset))))
  {
    UnsetRemovesField(m, unsetName, []);
  }
}
