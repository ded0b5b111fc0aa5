/**
 * The wrapper's unit tests, replayed against the contracts of the class:
 * each method builds its own wrapper and returns what the test observes.
 */
module RuntimeScenarios {
  import opened Wrappers
  import opened NameGrammar
  import opened PhpExceptions
  import opened Runtime

  /** "undefinedMethod" starts with none of the five verbs, so the pattern does not match it. */
  lemma UndefinedMethodDoesNotParse()
    ensures ParseMethodName("undefinedMethod") == None
  {
    var name := "undefinedMethod";
    assert name[0] == 'u' && name[2] == 'd';
    forall v: Verb ensures !(VerbText(v) <= name) {
      if v == Unset {
        assert VerbText(v)[2] == 's';
      } else {
        assert VerbText(v)[0] != 'u';
      }
    }
    assert FirstAlternative(name, Alternatives) == None;
  }

  /** An unknown verb throws BadMethodCall naming the class and the method. */
  method CallUndefinedMethod() returns (r: Result<Mixed<string>, Exception>)
    ensures r == Failure(BadMethodCall(UndefinedMethodMessage("undefinedMethod")))
  {
    UndefinedMethodDoesNotParse();
    var wrapper := ArrayWrapper<string>.Create();
    r := wrapper.Call("undefinedMethod", []);
  }

  /** `count` of a wrapper built from a one-element array. */
  method CountOfCreated() returns (n: nat)
    ensures n == 1
  {
    var wrapper := ArrayWrapper.Create(map["0" := "value"]);
    n := wrapper.Count();
  }

  /** Two wrappers created from the same array are distinct objects with equal contents. */
  method CreateTwice() returns (one: ArrayWrapper<string>, two: ArrayWrapper<string>)
    ensures one != two && one.items == two.items == map[]
  {
    one := ArrayWrapper<string>.Create(map[]);
    two := ArrayWrapper<string>.Create(map[]);
  }

  /** `is<Offset>()` then `has<Offset>()`: both report presence and leave the array alone. */
  method QueryBoth<V>(wrapper: ArrayWrapper<V>, offset: string)
    returns (isResult: Result<Mixed<V>, Exception>, hasResult: Result<Mixed<V>, Exception>)
    requires '\n' !in offset
    modifies wrapper
    ensures wrapper.items == old(wrapper.items)
    ensures isResult == hasResult == Success(Bool(PhpStrings.LcFirst(offset) in wrapper.items))
  {
    ParseVerbAndOffset(Is, offset);
    ParseVerbAndOffset(Has, offset);
    HasIsSynonyms(wrapper.items, offset, "has" + offset, "is" + offset, []);
    isResult := wrapper.Call("is" + offset, []);
    hasResult := wrapper.Call("has" + offset, []);
  }

  /** `set<Offset>(value)` stores the value under the offset's field. */
  method SetVia<V>(wrapper: ArrayWrapper<V>, offset: string, value: V)
    requires '\n' !in offset
    modifies wrapper
    ensures wrapper.items == old(wrapper.items)[PhpStrings.LcFirst(offset) := value]
  {
    ParseVerbAndOffset(Set, offset);
    SetStoresValue(wrapper.items, "set" + offset, [value]);
    var _ := wrapper.Call("set" + offset, [value]);
  }

  /** `get<Offset>()` on a present field reads it. */
  method GetVia<V>(wrapper: ArrayWrapper<V>, offset: string) returns (got: Result<Mixed<V>, Exception>)
    requires '\n' !in offset && PhpStrings.LcFirst(offset) in wrapper.items
    modifies wrapper
    ensures wrapper.items == old(wrapper.items)
    ensures got == Success(Value(wrapper.items[PhpStrings.LcFirst(offset)]))
  {
    ParseVerbAndOffset(Get, offset);
    got := wrapper.Call("get" + offset, []);
  }

  /** `unset<Offset>()` removes the offset's field. */
  method UnsetVia<V>(wrapper: ArrayWrapper<V>, offset: string)
    requires '\n' !in offset
    modifies wrapper
    ensures wrapper.items == old(wrapper.items) - {PhpStrings.LcFirst(offset)}
  {
    ParseVerbAndOffset(Unset, offset);
    UnsetRemovesField(wrapper.items, "unset" + offset, []);
    var _ := wrapper.Call("unset" + offset, []);
  }

  /**
   * is/has, set, get, unset through the verb-named methods on an initially
   * empty wrapper (the test uses the offset "Key").
   */
  method GettersSettersAccess(offset: string, value: string)
    returns (isBefore: Result<Mixed<string>, Exception>, hasBefore: Result<Mixed<string>, Exception>,
             isSet: Result<Mixed<string>, Exception>, hasSet: Result<Mixed<string>, Exception>,
             got: Result<Mixed<string>, Exception>,
             isAfter: Result<Mixed<string>, Exception>, hasAfter: Result<Mixed<string>, Exception>)
    requires '\n' !in offset
    ensures isBefore == hasBefore == Success(Bool(false))
    ensures isSet == hasSet == Success(Bool(true))
    ensures got == Success(Value(value))
    ensures isAfter == hasAfter == Success(Bool(false))
  {
    var empty: map<string, string> := map[];
    var field := PhpStrings.LcFirst(offset);
    var wrapper := ArrayWrapper<string>.Create();
    isBefore, hasBefore := QueryBoth(wrapper, offset);
    SetVia(wrapper, offset, value);
    isSet, hasSet := QueryBoth(wrapper, offset);
    got := GetVia(wrapper, offset);
    UnsetVia(wrapper, offset);
    assert wrapper.items == empty[field := value] - {field};
    assert wrapper.items == empty;
    isAfter, hasAfter := QueryBoth(wrapper, offset);
  }

  /** isset / assign / read / unset through the array-access surface. */
  method OffsetAccess() returns (before: bool, during: bool, read: Result<string, Exception>, after: bool)
    ensures !before && during && read == Success("value") && !after
  {
    var wrapper := ArrayWrapper<string>.Create();
    before := wrapper.OffsetExists("key");
    wrapper.OffsetSet("key", "value");
    during := wrapper.OffsetExists("key");
    read := wrapper.OffsetGet("key", None);
    wrapper.OffsetUnset("key");
    after := wrapper.OffsetExists("key");
  }

  /** offsetGet with an explicit default on a missing key returns the default. */
  method OffsetDefaultAccess() returns (present: bool, read: Result<string, Exception>)
    ensures !present && read == Success("value")
  {
    var wrapper := ArrayWrapper<string>.Create();
    present := wrapper.OffsetExists("key");
    read := wrapper.OffsetGet("key", Some("value"));
  }

  /** offsetGet without a default on a missing key throws InvalidArgument. */
  method OffsetNotExistAccess() returns (read: Result<string, Exception>)
    ensures read == Failure(InvalidArgument("Missing item \"[key]\""))
  {
    var wrapper := ArrayWrapper<string>.Create();
    read := wrapper.OffsetGet("key", None);
    assert MissingItemMessage("key") == "Missing item \"[key]\"";
  }

  /** isset / assign / read / unset through the property surface. */
  method PropertiesAccess() returns (before: bool, during: bool, read: string, after: bool)
    ensures !before && during && read == "value" && !after
  {
    var wrapper := ArrayWrapper<string>.Create();
    before := wrapper.MagicIsset("key");
    wrapper.MagicSet("key", "value");
    during := wrapper.MagicIsset("key");
    read := wrapper.MagicGet("key");
    wrapper.MagicUnset("key");
    after := wrapper.MagicIsset("key");
  }

  /** The property surface and the offset surface leave the same array behind. */
  method SurfacesAgree<V>(items: map<string, V>, key: string, value: V)
    returns (bySet: map<string, V>, byOffsetSet: map<string, V>, byUnset: map<string, V>, byOffsetUnset: map<string, V>)
    ensures bySet == byOffsetSet == items[key := value]
    ensures byUnset == byOffsetUnset == items - {key}
  {
    var w1 := ArrayWrapper.Create(items);
    var w2 := ArrayWrapper.Create(items);
    w1.MagicSet(key, value);
    w2.OffsetSet(key, value);
    bySet := w1.GetArray();
    byOffsetSet := w2.GetArray();
    var w3 := ArrayWrapper.Create(items);
    var w4 := ArrayWrapper.Create(items);
    w3.MagicUnset(key);
    w4.OffsetUnset(key);
    byUnset := w3.GetArray();
    byOffsetUnset := w4.GetArray();
  }
}
