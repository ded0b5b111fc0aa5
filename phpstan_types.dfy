/**
 * The part of the host type checker that the extension consults, reduced to
 * values: types (with constant array shapes), three-valued logic, and a
 * class's ArrayWrapper ancestor with its template bindings.
 */
module PhpStanTypes {
  import opened Wrappers

  datatype TrinaryLogic = Yes | Maybe | No

  /** A static type; `ConstantArrayType` is an array shape `array{key: T, key?: T}`. */
  datatype Type =
    | StringType
    | BoolType
    | VoidType
    | ConstantArrayType(items: map<string, ArrayItem>)

  /** One key of a shape: its value type and whether the key may be absent (`key?:`). */
  datatype ArrayItem = ArrayItem(valueType: Type, optional: bool)

  /** Template parameter name to the type bound to it. */
  type TemplateTypeMap = map<string, Type>

  /** A class as the extension sees it: the template map of its ArrayWrapper ancestor, if it has one. */
  datatype ClassReflection = ClassReflection(arrayWrapperAncestor: Option<TemplateTypeMap>)

  /** The template parameter of ArrayWrapper that carries the array shape. */
  const InnerArrayParameter: string := "TInnerArray"

  /** `hasOffsetValueType` of a constant array for a constant string key. */
  function HasOffsetValueType(items: map<string, ArrayItem>, key: string): (t: TrinaryLogic)
    ensures t == Yes <==> key in items && !items[key].optional
    ensures t == No <==> key !in items
  {
    if key !in items then No
    else if items[key].optional then Maybe
    else Yes
  }

  /** `getOffsetValueType` of a constant array for a key it has. */
  function GetOffsetValueType(items: map<string, ArrayItem>, key: string): Type
    requires key in items
  {
    items[key].valueType
  }
}
