/**
 * The runtime wrapper `ArrayWrapper`: one PHP array, updated in place, reached
 * through the array-access surface (offset*), the property surface (the magic
 * __get/__isset/__set/__unset, here Magic*) and the verb-named magic methods
 * (__call, here Call).
 */
module Runtime {
  import opened Wrappers
  import opened PhpStrings
  import opened NameGrammar
  import opened PhpExceptions

  /** `__CLASS__` inside the wrapper. */
  const ClassName: string := "ZeleznyPa\\ArrayWrapper\\ArrayWrapper"

  /** The PHP value `__call` returns: null, a boolean, or a stored value. */
  datatype Mixed<V> = Null | Bool(b: bool) | Value(value: V)

  function UndefinedMethodMessage(name: string): string
  {
    "Call to undefined method " + ClassName + "::" + name + "()"
  }

  function MissingItemMessage(offset: string): string
  {
    "Missing item \"[" + offset + "]\""
  }

  /**
   * The set branch reads `$arguments[0]`; without it PHP only warns and stores
   * null, which this model excludes.
   */
  predicate CallArgumentsSuffice<V>(name: string, arguments: seq<V>)
  {
    ParseMethodName(name).Some? && ParseMethodName(name).value.verb == Set ==> |arguments| >= 1
  }

  /** What a call yields and the array it leaves behind. */
  datatype Outcome<V> = Outcome(result: Result<Mixed<V>, Exception>, items: map<string, V>)

  /**
   * The meaning of `__call(name, arguments)` on the array `m`. The get branch
   * forwards no default, so a missing field always throws.
   */
  function Dispatch<V>(m: map<string, V>, name: string, arguments: seq<V>): (o: Outcome<V>)
    requires CallArgumentsSuffice(name, arguments)
    ensures o.result.Failure? && o.result.error.BadMethodCall? <==> ParseMethodName(name).None?
    ensures ParseMethodName(name).None? ==> o.result.error.message == UndefinedMethodMessage(name)
    ensures o.result.Failure? ==> o.items == m
    ensures ParseMethodName(name).Some? && ParseMethodName(name).value.verb in {Get, Has, Is} ==> o.items == m
  {
    match ParseMethodName(name)
    case None => Outcome(Failure(BadMethodCall(UndefinedMethodMessage(name))), m)
    case Some(parsed) =>
      var field := TargetField(parsed);
      match Operation(parsed.verb)
      case Read =>
        if field in m then Outcome(Success(Value(m[field])), m)
        else Outcome(Failure(InvalidArgument(MissingItemMessage(field))), m)
      case Exists => Outcome(Success(Bool(field in m)), m)
      case Write => Outcome(Success(Null), m[field := arguments[0]])
      case Remove => Outcome(Success(Null), m - {field})
  }

  class ArrayWrapper<V> {
    var items: map<string, V>

    constructor (items: map<string, V>)
      ensures this.items == items
    {
      new;
      SetArray(items);
    }

    /** The static factory; every call yields a fresh wrapper. */
    static method Create(items: map<string, V> := map[]) returns (wrapper: ArrayWrapper<V>)
      ensures fresh(wrapper) && wrapper.items == items
    {
      wrapper := new ArrayWrapper(items);
    }

    /** `__call`: parse the name, then hand the field to the matching offset method. */
    method Call(name: string, arguments: seq<V>) returns (r: Result<Mixed<V>, Exception>)
      requires CallArgumentsSuffice(name, arguments)
      modifies this
      ensures r == Dispatch(old(items), name, arguments).result
      ensures items == Dispatch(old(items), name, arguments).items
    {
      var parsed := ParseMethodName(name);
      if parsed.None? {
        return Failure(BadMethodCall(UndefinedMethodMessage(name)));
      }
      var verb := VerbText(parsed.value.verb);
      var offset := LcFirst(parsed.value.offset);
      ghost var m := items;
      r := Success(Null);
      if verb == "get" {
        assert parsed.value.verb == Get;
        var item := OffsetGet(offset, None);
        r := if item.Success? then Success(Value(item.value)) else Failure(item.error);
      } else if verb == "has" || verb == "is" {
        assert Operation(parsed.value.verb) == Exists;
        var present := OffsetExists(offset);
        r := Success(Bool(present));
      } else if verb == "set" {
        assert parsed.value.verb == Set;
        OffsetSet(offset, arguments[0]);
        assert Dispatch(m, name, arguments) == Outcome(Success(Null), m[offset := arguments[0]]);
      } else if verb == "unset" {
        assert parsed.value.verb == Unset;
        OffsetUnset(offset);
        assert Dispatch(m, name, arguments) == Outcome(Success(Null), m - {offset});
      } else {
        // The `method` group holds one of the five verbs, so PHP's fall-through is unreachable.
        assert false;
      }
    }

    /** `__get`: indexes without an existence check (PHP only warns on a missing key). */
    method MagicGet(name: string) returns (value: V)
      requires name in items
      ensures value == items[name]
    {
      value := items[name];
    }

    /** `__isset`: key presence, whatever the value (`array_key_exists`). */
    method MagicIsset(name: string) returns (present: bool)
      ensures present <==> name in items
    {
      present := name in items;
    }

    /** `__set` */
    method MagicSet(name: string, value: V)
      modifies this
      ensures items == old(items)[name := value]
    {
      items := items[name := value];
    }

    /** `__unset`: removing an absent key is a no-op. */
    method MagicUnset(name: string)
      modifies this
      ensures items == old(items) - {name}
    {
      items := items - {name};
    }

    /** `count`: the number of keys. */
    method Count() returns (n: nat)
      ensures n == |items.Keys|
    {
      n := |items|;
    }

    method OffsetExists(offset: string) returns (present: bool)
      ensures present <==> offset in items
    {
      present := MagicIsset(offset);
    }

    /**
     * `offsetGet`: the stored value, else the default when one was passed
     * (`func_num_args() > 1`), else InvalidArgument.
     */
    method OffsetGet(offset: string, default: Option<V>) returns (r: Result<V, Exception>)
      ensures offset in items ==> r == Success(items[offset])
      ensures offset !in items && default.Some? ==> r == Success(default.value)
      ensures offset !in items && default.None? ==> r == Failure(InvalidArgument(MissingItemMessage(offset)))
    {
      var present := MagicIsset(offset);
      if present {
        var value := MagicGet(offset);
        r := Success(value);
      } else if default.Some? {
        r := Success(default.value);
      } else {
        r := Failure(InvalidArgument(MissingItemMessage(offset)));
      }
    }

    method OffsetSet(offset: string, value: V)
      modifies this
      ensures items == old(items)[offset := value]
      ensures |items| == |old(items)| + (if offset in old(items) then 0 else 1)
    {
      MagicSet(offset, value);
    }

    method OffsetUnset(offset: string)
      modifies this
      ensures items == old(items) - {offset}
      ensures offset !in items
      ensures offset !in old(items) ==> items == old(items)
      ensures |items| == |old(items)| - (if offset in old(items) then 1 else 0)
    {
      MagicUnset(offset);
      RemoveKey(old(items), offset);
    }

    method GetArray() returns (a: map<string, V>)
      ensures a == items
    {
      a := items;
    }

    /**
     * `setArray`: replaces the whole array. It is protected in PHP, so only
     * the constructor calls it; from outside, `setArray($x)` would reach
     * `__call` and write the key "array".
     */
    method SetArray(items: map<string, V>)
      modifies this
      ensures this.items == items
    {
      this.items := items;
    }
  }

  /** Removing a key leaves it absent, changes nothing when it was absent, and lowers the count by one exactly when it was there. */
  lemma RemoveKey<V>(m: map<string, V>, k: string)
    ensures k !in m - {k}
    ensures k !in m ==> m - {k} == m
    ensures |m - {k}| == |m| - (if k in m then 1 else 0)
  {
    assert (m - {k}).Keys == m.Keys - {k};
    if k !in m {
      assert m - {k} == m;
    } else {
      assert |m.Keys - {k}| == |m.Keys| - 1;
    }
  }

  /** A call touches at most the key its name targets: every other key keeps its presence and its value. */
  lemma DispatchFrame<V>(m: map<string, V>, name: string, arguments: seq<V>, k: string)
    requires CallArgumentsSuffice(name, arguments)
    requires ParseMethodName(name).Some? ==> k != TargetField(ParseMethodName(name).value)
    ensures k in Dispatch(m, name, arguments).items <==> k in m
    ensures k in m ==> Dispatch(m, name, arguments).items[k] == m[k]
  {
  }

  /** The get branch forwards no default: extra arguments change nothing and a missing field always throws. */
  lemma CallGetIgnoresArguments<V>(m: map<string, V>, name: string, arguments: seq<V>)
    requires ParseMethodName(name).Some? && ParseMethodName(name).value.verb == Get
    ensures Dispatch(m, name, arguments) == Dispatch(m, name, [])
    ensures var field := TargetField(ParseMethodName(name).value);
      Dispatch(m, name, arguments).result ==
        if field in m then Success(Value(m[field])) else Failure(InvalidArgument(MissingItemMessage(field)))
    ensures Dispatch(m, name, arguments).items == m
  {
  }

  /** `has` and `is` are synonyms: both report whether the key is present, never the value's truthiness. */
  lemma HasIsSynonyms<V>(m: map<string, V>, offset: string, hasName: string, isName: string, arguments: seq<V>)
    requires ParseMethodName(hasName) == Some(Match(Has, offset))
    requires ParseMethodName(isName) == Some(Match(Is, offset))
    ensures Dispatch(m, hasName, arguments) == Dispatch(m, isName, arguments)
    ensures Dispatch(m, hasName, arguments) == Outcome(Success(Bool(LcFirst(offset) in m)), m)
  {
  }

  /** `set<Offset>(v, ...)` stores v under the field; the count grows only for a new key. */
  lemma SetStoresValue<V>(m: map<string, V>, name: string, arguments: seq<V>)
    requires ParseMethodName(name).Some? && ParseMethodName(name).value.verb == Set
    requires |arguments| >= 1
    ensures var field := TargetField(ParseMethodName(name).value);
      && Dispatch(m, name, arguments) == Outcome(Success(Null), m[field := arguments[0]])
      && |m[field := arguments[0]]| == |m| + (if field in m then 0 else 1)
  {
  }

  /** After `unset<Offset>()` the field is absent whether or not it was there; unsetting an absent field changes nothing. */
  lemma UnsetRemovesField<V>(m: map<string, V>, name: string, arguments: seq<V>)
    requires ParseMethodName(name).Some? && ParseMethodName(name).value.verb == Unset
    ensures var field := TargetField(ParseMethodName(name).value);
      var after := Dispatch(m, name, arguments);
      && after.result == Success(Null)
      && field !in after.items
      && (field !in m ==> after.items == m)
      && |after.items| == |m| - (if field in m then 1 else 0)
  {
    var field := TargetField(ParseMethodName(name).value);
    assert Dispatch(m, name, arguments) == Outcome(Success(Null), m - {field});
    RemoveKey(m, field);
  }

  /** After a setter on an offset, the getter and the has/is query on the same offset see the stored value. */
  lemma SetThenQuery<V>(m: map<string, V>, offset: string, setName: string, getName: string, queryName: string, v: V)
    requires ParseMethodName(setName) == Some(Match(Set, offset))
    requires ParseMethodName(getName) == Some(Match(Get, offset))
    requires ParseMethodName(queryName).Some? && ParseMethodName(queryName).value == Match(ParseMethodName(queryName).value.verb, offset)
    requires Operation(ParseMethodName(queryName).value.verb) == Exists
    ensures var after := Dispatch(m, setName, [v]).items;
      && Dispatch(after, getName, []).result == Success(Value(v))
      && Dispatch(after, queryName, []).result == Success(Bool(true))
  {
    SetStoresValue(m, setName, [v]);
  }

  /** On an absent field, the has/is query is false and the getter throws "Missing item". */
  lemma QueriesOfAbsentField<V>(m: map<string, V>, offset: string, getName: string, queryName: string)
    requires LcFirst(offset) !in m
    requires ParseMethodName(getName) == Some(Match(Get, offset))
    requires ParseMethodName(queryName).Some? && ParseMethodName(queryName).value == Match(ParseMethodName(queryName).value.verb, offset)
    requires Operation(ParseMethodName(queryName).value.verb) == Exists
    ensures Dispatch(m, queryName, []).result == Success(Bool(false))
    ensures Dispatch(m, getName, []).result == Failure(InvalidArgument(MissingItemMessage(LcFirst(offset))))
  {
  }
}
