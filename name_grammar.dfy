/**
 * The method-name grammar shared by the runtime dispatcher and the static
 * resolver: the PCRE pattern `^(?P<method>(?:get|has|is|set|unset))(?P<offset>.*)$`
 * (no flags), and the field it targets, `lcfirst(offset)`.
 */
module NameGrammar {
  import opened Wrappers
  import opened PhpStrings

  /** The five verbs of the `method` group. */
  datatype Verb = Get | Has | Is | Set | Unset

  function VerbText(v: Verb): string
  {
    match v
    case Get => "get"
    case Has => "has"
    case Is => "is"
    case Set => "set"
    case Unset => "unset"
  }

  /** The alternatives of the `method` group, in the order PCRE tries them. */
  const Alternatives: seq<Verb> := [Get, Has, Is, Set, Unset]

  /** The operation a verb performs on the array; `has` and `is` are synonyms. */
  datatype FieldOperation = Read | Exists | Write | Remove

  function Operation(v: Verb): (op: FieldOperation)
    ensures op == Exists <==> v == Has || v == Is
    ensures op == Read <==> v == Get
    ensures op == Write <==> v == Set
    ensures op == Remove <==> v == Unset
  {
    match v
    case Get => Read
    case Has => Exists
    case Is => Exists
    case Set => Write
    case Unset => Remove
  }

  /** The first alternative whose literal text starts `name`, as the regex engine picks it. */
  function FirstAlternative(name: string, alternatives: seq<Verb>): (r: Option<Verb>)
    ensures r.Some? ==> r.value in alternatives && VerbText(r.value) <= name
    ensures r.None? ==> forall v :: v in alternatives ==> !(VerbText(v) <= name)
    decreases |alternatives|
  {
    if alternatives == [] then None
    else if VerbText(alternatives[0]) <= name then Some(alternatives[0])
    else FirstAlternative(name, alternatives[1..])
  }

  /**
   * What `(?P<offset>.*)$` captures from the text after the verb: `.` does not
   * match a line feed, and `$` matches at the very end or just before a final
   * line feed, which the capture then leaves out.
   */
  function OffsetCapture(rest: string): (r: Option<string>)
    ensures r.Some? ==> '\n' !in r.value && (rest == r.value || rest == r.value + "\n")
    ensures '\n' !in rest ==> r == Some(rest)
  {
    if '\n' !in rest then Some(rest)
    else if rest[|rest| - 1] == '\n' && '\n' !in rest[..|rest| - 1] then Some(rest[..|rest| - 1])
    else None
  }

  /** The two named groups of a successful match. */
  datatype Match = Match(verb: Verb, offset: string)

  /** `preg_match` of the pattern against `name`; None when it does not match. */
  function ParseMethodName(name: string): (r: Option<Match>)
    ensures r.Some? ==> '\n' !in r.value.offset
    ensures r.Some? ==>
      name == VerbText(r.value.verb) + r.value.offset || name == VerbText(r.value.verb) + r.value.offset + "\n"
  {
    match FirstAlternative(name, Alternatives)
    case None => None
    case Some(v) =>
      match OffsetCapture(name[|VerbText(v)|..])
      case None => None
      case Some(offset) => Some(Match(v, offset))
  }

  /** The array key a matched name addresses: `lcfirst` of the `offset` group. */
  function TargetField(m: Match): string
  {
    LcFirst(m.offset)
  }

  /** The verb a name starts with is the alternative the engine picks: no two verbs share a first letter. */
  lemma FirstAlternativeIs(v: Verb, name: string)
    requires VerbText(v) <= name
    ensures FirstAlternative(name, Alternatives) == Some(v)
  {
    assert v in Alternatives;
    var first := FirstAlternative(name, Alternatives).value;
    assert VerbText(first)[0] == name[0] == VerbText(v)[0];
  }

  /** Every verb followed by any line-feed-free text matches, with exactly that verb and that offset. */
  lemma ParseVerbAndOffset(v: Verb, offset: string)
    requires '\n' !in offset
    ensures ParseMethodName(VerbText(v) + offset) == Some(Match(v, offset))
  {
    var name := VerbText(v) + offset;
    FirstAlternativeIs(v, name);
    assert name[|VerbText(v)|..] == offset;
  }

  /** A final line feed after line-feed-free text is where `$` matches; the capture leaves it out. */
  lemma CaptureBeforeFinalNewline(offset: string)
    requires '\n' !in offset
    ensures OffsetCapture(offset + "\n") == Some(offset)
  {
    var rest := offset + "\n";
    assert rest[|rest| - 1] == '\n';
    assert rest[..|rest| - 1] == offset;
  }

  /** The same holds with one final line feed, which `$` may precede: the offset leaves it out. */
  lemma ParseVerbOffsetAndFinalNewline(v: Verb, offset: string)
    requires '\n' !in offset
    ensures ParseMethodName(VerbText(v) + offset + "\n") == Some(Match(v, offset))
  {
    var rest := offset + "\n";
    var name := VerbText(v) + rest;
    assert VerbText(v) + offset + "\n" == name;
    FirstAlternativeIs(v, name);
    assert name[|VerbText(v)|..] == rest;
    CaptureBeforeFinalNewline(offset);
  }

  /** The offset group may be empty: a bare verb matches and addresses the key "". */
  lemma BareVerbTargetsEmptyKey(v: Verb)
    ensures ParseMethodName(VerbText(v)) == Some(Match(v, ""))
    ensures TargetField(Match(v, "")) == ""
  {
    ParseVerbAndOffset(v, "");
    assert VerbText(v) + "" == VerbText(v);
  }
}
