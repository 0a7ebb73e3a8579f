/**
 * Langpack extraction (`farmanager_build/src/lng.rs`): finding the enum that defines a
 * plugin's message tables and reading its attributes. The parsed source is an abstract
 * syntax tree holding only what the extraction looks at.
 */
module Lng {
  import opened Wrappers

  const ATTR_NAME_LANGPACK: string := "langpack"
  const ATTR_NAME_LANGPACK_NAME: string := "name"
  const ATTR_NAME_LANGUAGE: string := "language"
  const ATTR_NAME_LANGUAGE_CODE: string := "code"
  const ATTR_NAME_LANGUAGE_VALUE: string := "value"
  const ATTR_NAME_MESSAGE: string := "msg"
  const ATTR_NAME_MESSAGE_LANGUAGE: string := "language"
  const ATTR_NAME_MESSAGE_VALUE: string := "value"

  const LANGPACK_FORMAT_PANIC: string := "'langpack' attribute should have format: '#[langpack(name = \"<name>\")]'"
  const LANGUAGE_FORMAT_PANIC: string := "'language' attribute should have format: '#[language(code = \"<code>\", value = \"<value>\")]'"
  const MESSAGE_FORMAT_PANIC: string := "'msg' attribute should have format: '#[msg(language = \"<language_code>\", value = \"<value>\")]'"
  const UNWRAP_NONE_PANIC: string := "called `Option::unwrap()` on a `None` value"
  const UNREACHABLE_PANIC: string := "internal error: entered unreachable code"
  const PARSE_FILE_PANIC: string := "called `Result::unwrap()` on an `Err` value"

  /** The panic of a variant that lacks a message for some language. */
  function MissingMessagesPanic(ident: string): Panic {
    Panic("Enum variant '" + ident + "' do not contain messages for all defined languages of langpack")
  }

  // ---------------------------------------------------------------- the syntax tree

  datatype Lit = Str(value: string) | OtherLit

  datatype MetaNameValue = MetaNameValue(ident: string, lit: Lit)

  datatype NestedMeta = NestedNameValue(nameValue: MetaNameValue) | OtherNestedMeta

  /** `syn::Meta`: `name(...)`, `name = lit` or a bare `name`. */
  datatype Meta = List(ident: string, nested: seq<NestedMeta>) | NameValue(ident: string, lit: Lit) | Word(ident: string)

  /** An attribute, by what `interpret_meta` reads from it (`None` when it cannot). */
  datatype Attribute = Attribute(meta: Option<Meta>)

  datatype Variant = Variant(ident: string, attrs: seq<Attribute>)

  datatype ItemEnum = ItemEnum(attrs: seq<Attribute>, variants: seq<Variant>)

  datatype Item = Enum(e: ItemEnum) | OtherItem

  /** `LangpackDefinition`: the langpack's name and each language's code and display value. */
  datatype LangpackDefinition = LangpackDefinition(name: string, languages: map<string, string>)

  /** `Langpack`: the definition and, per language code, one message per variant. */
  datatype Langpack = Langpack(definition: LangpackDefinition, messages: map<string, seq<string>>)

  /** `get_attr_name` */
  function GetAttrName(meta: Meta): string {
    meta.ident
  }

  /** `a.interpret_meta().unwrap()` */
  function MetaOf(a: Attribute): (r: Result<Meta, Panic>)
    ensures r.Ok? <==> a.meta.Some?
    ensures r.Ok? ==> r.value == a.meta.value
    ensures r.Err? ==> r.error == Panic(UNWRAP_NONE_PANIC)
  {
    match a.meta
    case Some(m) => Ok(m)
    case None => Err(Panic(UNWRAP_NONE_PANIC))
  }

  /** Some readable attribute of `attrs` is named `name`. */
  predicate HasAttrNamed(attrs: seq<Attribute>, name: string) {
    exists i :: 0 <= i < |attrs| && attrs[i].meta.Some? && GetAttrName(attrs[i].meta.value) == name
  }

  /** Every attribute of `attrs` can be read as a `Meta`. */
  predicate Readable(attrs: seq<Attribute>) {
    forall i :: 0 <= i < |attrs| ==> attrs[i].meta.Some?
  }

  // ---------------------------------------------------------------- is_langpack_enum

  /** What `is_langpack_enum` decides, or its panic on an unreadable attribute of an enum. */
  function LangpackEnumTest(item: Item): Result<bool, Panic> {
    if !item.Enum? then Ok(false)
    else if !Readable(item.e.attrs) then Err(Panic(UNWRAP_NONE_PANIC))
    else Ok(HasAttrNamed(item.e.attrs, ATTR_NAME_LANGPACK) && HasAttrNamed(item.e.attrs, ATTR_NAME_LANGUAGE))
  }

  /**
   * `is_langpack_enum`: an enum item carrying a `langpack` attribute and at least one
   * `language` attribute. Every attribute of an enum is read, so an unreadable one panics.
   */
  method IsLangpackEnum(item: Item) returns (r: Result<bool, Panic>)
    ensures r == LangpackEnumTest(item)
    ensures r.Err? <==> item.Enum? && !Readable(item.e.attrs)
    ensures r.Ok? ==> (r.value <==>
      item.Enum? && HasAttrNamed(item.e.attrs, ATTR_NAME_LANGPACK) && HasAttrNamed(item.e.attrs, ATTR_NAME_LANGUAGE))
  {
    if !item.Enum? {
      return Ok(false);
    }
    var attrs := item.e.attrs;
    var isLangpackAttrDefined := false;
    var isLanguageAttrDefined := false;
    var k := 0;
    while k < |attrs|
      invariant 0 <= k <= |attrs|
      invariant Readable(attrs[..k])
      invariant isLangpackAttrDefined <==> HasAttrNamed(attrs[..k], ATTR_NAME_LANGPACK)
      invariant isLanguageAttrDefined <==> HasAttrNamed(attrs[..k], ATTR_NAME_LANGUAGE)
    {
      var meta := MetaOf(attrs[k]);
      if meta.Err? {
        assert !Readable(attrs);
        return Err(meta.error);
      }
      var name := GetAttrName(meta.value);
      if name == ATTR_NAME_LANGPACK {
        isLangpackAttrDefined := true;
      } else if name == ATTR_NAME_LANGUAGE {
        isLanguageAttrDefined := true;
      }
      assert attrs[..k + 1] == attrs[..k] + [attrs[k]];
      k := k + 1;
    }
    assert attrs[..k] == attrs;
    r := Ok(isLangpackAttrDefined && isLanguageAttrDefined);
  }

  // ---------------------------------------------------------------- attribute arguments

  /**
   * `parse_langpack_attr`: the string value of `name = "..."` when it is the first argument
   * of a list attribute; any other shape panics.
   */
  function ParseLangpackAttr(meta: Meta): (r: Result<string, Panic>)
    ensures r.Err? ==> r.error == Panic(LANGPACK_FORMAT_PANIC)
  {
    if !meta.List? || |meta.nested| == 0 || !meta.nested[0].NestedNameValue? then Err(Panic(LANGPACK_FORMAT_PANIC))
    else
      var nameValue := meta.nested[0].nameValue;
      if nameValue.ident == ATTR_NAME_LANGPACK_NAME && nameValue.lit.Str? then Ok(nameValue.lit.value)
      else Err(Panic(LANGPACK_FORMAT_PANIC))
  }

  /** Only the first argument is read: whatever follows it, even a malformed one, is ignored. */
  lemma LangpackAttrReadsFirst(ident: string, first: NestedMeta, rest: seq<NestedMeta>)
    ensures ParseLangpackAttr(List(ident, [first] + rest)) == ParseLangpackAttr(List(ident, [first]))
    ensures first == NestedNameValue(MetaNameValue(ATTR_NAME_LANGPACK_NAME, Str(ident))) ==>
      ParseLangpackAttr(List(ident, [first] + rest)) == Ok(ident)
  {
  }

  /** An argument `key = "..."` with one of the two accepted keys. */
  predicate AcceptedArgument(n: NestedMeta, key1: string, key2: string) {
    n.NestedNameValue? && n.nameValue.lit.Str? && (n.nameValue.ident == key1 || n.nameValue.ident == key2)
  }

  /** The value of the last argument `key = "..."`, if any. */
  function LastValue(nested: seq<NestedMeta>, key: string): Option<string>
    decreases |nested|
  {
    if |nested| == 0 then None
    else
      var n := nested[|nested| - 1];
      if n.NestedNameValue? && n.nameValue.lit.Str? && n.nameValue.ident == key then Some(n.nameValue.lit.value)
      else LastValue(nested[..|nested| - 1], key)
  }

  /** The two values read so far by the `for_each` of a pair attribute. */
  datatype PairScan = PairScan(first: Option<string>, second: Option<string>)

  /** One argument of a pair attribute: a value of one of the two keys, or the format panic. */
  function PairStep(st: PairScan, n: NestedMeta, key1: string, key2: string): Option<PairScan> {
    if !n.NestedNameValue? || !n.nameValue.lit.Str? then None
    else if n.nameValue.ident == key1 then Some(st.(first := Some(n.nameValue.lit.value)))
    else if n.nameValue.ident == key2 then Some(st.(second := Some(n.nameValue.lit.value)))
    else None
  }

  /** The arguments read in order; `None` is the format panic. */
  function ScanPairs(nested: seq<NestedMeta>, key1: string, key2: string): Option<PairScan>
    decreases |nested|
  {
    if |nested| == 0 then Some(PairScan(None, None))
    else
      match ScanPairs(nested[..|nested| - 1], key1, key2)
      case None => None
      case Some(st) => PairStep(st, nested[|nested| - 1], key1, key2)
  }

  /**
   * `parse_language_attr` and `parse_msg_attr`: a list attribute whose arguments all have
   * one of the two keys, and which has both, gives the last value of each; anything else
   * panics with the attribute's format message.
   */
  function PairAttr(meta: Meta, key1: string, key2: string, formatPanic: string): Result<(string, string), Panic> {
    if !meta.List? then Err(Panic(formatPanic))
    else
      match ScanPairs(meta.nested, key1, key2)
      case None => Err(Panic(formatPanic))
      case Some(st) =>
        if st.first.Some? && st.second.Some? then Ok((st.first.value, st.second.value))
        else Err(Panic(formatPanic))
  }

  /** The scan fails exactly at a malformed argument, and otherwise holds the last value of each key. */
  lemma {:induction false} ScanPairsMeaning(nested: seq<NestedMeta>, key1: string, key2: string)
    requires key1 != key2
    ensures ScanPairs(nested, key1, key2).Some? <==> forall i :: 0 <= i < |nested| ==> AcceptedArgument(nested[i], key1, key2)
    ensures ScanPairs(nested, key1, key2).Some? ==>
      ScanPairs(nested, key1, key2).value == PairScan(LastValue(nested, key1), LastValue(nested, key2))
    decreases |nested|
  {
    if |nested| > 0 {
      var prefix := nested[..|nested| - 1];
      ScanPairsMeaning(prefix, key1, key2);
      assert forall i :: 0 <= i < |prefix| ==> prefix[i] == nested[i];
    }
  }

  /**
   * A pair attribute is read exactly when it is a list whose arguments all have one of the
   * two keys and both keys occur; a repeated key keeps its last value.
   */
  lemma PairAttrMeaning(meta: Meta, key1: string, key2: string, formatPanic: string)
    requires key1 != key2
    ensures PairAttr(meta, key1, key2, formatPanic).Ok? <==>
      && meta.List?
      && (forall i :: 0 <= i < |meta.nested| ==> AcceptedArgument(meta.nested[i], key1, key2))
      && LastValue(meta.nested, key1).Some? && LastValue(meta.nested, key2).Some?
    ensures PairAttr(meta, key1, key2, formatPanic).Ok? ==>
      PairAttr(meta, key1, key2, formatPanic).value == (LastValue(meta.nested, key1).value, LastValue(meta.nested, key2).value)
    ensures PairAttr(meta, key1, key2, formatPanic).Err? ==> PairAttr(meta, key1, key2, formatPanic).error == Panic(formatPanic)
  {
    if meta.List? {
      ScanPairsMeaning(meta.nested, key1, key2);
    }
  }

  /** `#[language(code = "en", value = "English", code = "de")]` reads the code `de`. */
  lemma RepeatedKeyKeepsLast()
    ensures PairAttr(
      List(ATTR_NAME_LANGUAGE, [
        NestedNameValue(MetaNameValue(ATTR_NAME_LANGUAGE_CODE, Str("en"))),
        NestedNameValue(MetaNameValue(ATTR_NAME_LANGUAGE_VALUE, Str("English"))),
        NestedNameValue(MetaNameValue(ATTR_NAME_LANGUAGE_CODE, Str("de")))]),
      ATTR_NAME_LANGUAGE_CODE, ATTR_NAME_LANGUAGE_VALUE, LANGUAGE_FORMAT_PANIC) == Ok(("de", "English"))
  {
    var nested := [
      NestedNameValue(MetaNameValue(ATTR_NAME_LANGUAGE_CODE, Str("en"))),
      NestedNameValue(MetaNameValue(ATTR_NAME_LANGUAGE_VALUE, Str("English"))),
      NestedNameValue(MetaNameValue(ATTR_NAME_LANGUAGE_CODE, Str("de")))];
    PairAttrMeaning(List(ATTR_NAME_LANGUAGE, nested), ATTR_NAME_LANGUAGE_CODE, ATTR_NAME_LANGUAGE_VALUE, LANGUAGE_FORMAT_PANIC);
    assert nested[..2] == [nested[0], nested[1]];
    assert LastValue(nested, ATTR_NAME_LANGUAGE_CODE) == Some("de");
    assert LastValue(nested, ATTR_NAME_LANGUAGE_VALUE) == LastValue(nested[..2], ATTR_NAME_LANGUAGE_VALUE) == Some("English");
  }

  /** The `for_each` over a pair attribute's arguments, as a loop. */
  method ParsePairAttr(meta: Meta, key1: string, key2: string, formatPanic: string) returns (r: Result<(string, string), Panic>)
    ensures r == PairAttr(meta, key1, key2, formatPanic)
  {
    if !meta.List? {
      return Err(Panic(formatPanic));
    }
    var nested := meta.nested;
    var first: Option<string> := None;
    var second: Option<string> := None;
    var k := 0;
    while k < |nested|
      invariant 0 <= k <= |nested|
      invariant ScanPairs(nested[..k], key1, key2) == Some(PairScan(first, second))
    {
      var n := nested[k];
      assert nested[..k + 1][..k] == nested[..k];
      if !n.NestedNameValue? || !n.nameValue.lit.Str? {
        ScanPairsStaysFailed(nested, k + 1, key1, key2);
        return Err(Panic(formatPanic));
      }
      if n.nameValue.ident == key1 {
        first := Some(n.nameValue.lit.value);
      } else if n.nameValue.ident == key2 {
        second := Some(n.nameValue.lit.value);
      } else {
        ScanPairsStaysFailed(nested, k + 1, key1, key2);
        return Err(Panic(formatPanic));
      }
      k := k + 1;
    }
    assert nested[..k] == nested;
    if first.Some? && second.Some? {
      r := Ok((first.value, second.value));
    } else {
      r := Err(Panic(formatPanic));
    }
  }

  /** Once the scan of a prefix fails, the scan of the whole fails. */
  lemma {:induction false} ScanPairsStaysFailed(nested: seq<NestedMeta>, k: nat, key1: string, key2: string)
    requires k <= |nested|
    requires ScanPairs(nested[..k], key1, key2).None?
    ensures ScanPairs(nested, key1, key2).None?
    decreases |nested| - k
  {
    if k < |nested| {
      assert nested[..k + 1][..k] == nested[..k];
      ScanPairsStaysFailed(nested, k + 1, key1, key2);
    } else {
      assert nested[..k] == nested;
    }
  }

  /** `parse_language_attr`: a language's code and display value. */
  method ParseLanguageAttr(meta: Meta) returns (r: Result<(string, string), Panic>)
    ensures r == PairAttr(meta, ATTR_NAME_LANGUAGE_CODE, ATTR_NAME_LANGUAGE_VALUE, LANGUAGE_FORMAT_PANIC)
  {
    r := ParsePairAttr(meta, ATTR_NAME_LANGUAGE_CODE, ATTR_NAME_LANGUAGE_VALUE, LANGUAGE_FORMAT_PANIC);
  }

  /** `parse_msg_attr`: a message's language code and text. */
  method ParseMsgAttr(meta: Meta) returns (r: Result<(string, string), Panic>)
    ensures r == PairAttr(meta, ATTR_NAME_MESSAGE_LANGUAGE, ATTR_NAME_MESSAGE_VALUE, MESSAGE_FORMAT_PANIC)
  {
    r := ParsePairAttr(meta, ATTR_NAME_MESSAGE_LANGUAGE, ATTR_NAME_MESSAGE_VALUE, MESSAGE_FORMAT_PANIC);
  }

  // ---------------------------------------------------------------- parse_langpack_definition

  /** What the loop of `parse_langpack_definition` has read so far. */
  datatype DefinitionScan = DefinitionScan(name: Option<string>, languages: map<string, string>)

  /** One attribute of the enum: a `langpack` name, a `language` entry, or nothing. */
  function DefinitionStep(st: DefinitionScan, a: Attribute): Result<DefinitionScan, Panic> {
    match MetaOf(a)
    case Err(p) => Err(p)
    case Ok(meta) =>
      if GetAttrName(meta) == ATTR_NAME_LANGPACK then
        match ParseLangpackAttr(meta)
        case Err(p) => Err(p)
        case Ok(name) => Ok(st.(name := Some(name)))
      else if GetAttrName(meta) == ATTR_NAME_LANGUAGE then
        match PairAttr(meta, ATTR_NAME_LANGUAGE_CODE, ATTR_NAME_LANGUAGE_VALUE, LANGUAGE_FORMAT_PANIC)
        case Err(p) => Err(p)
        case Ok(entry) => Ok(st.(languages := st.languages[entry.0 := entry.1]))
      else Ok(st)
  }

  /** The attributes read in order. */
  function ScanDefinition(attrs: seq<Attribute>): Result<DefinitionScan, Panic>
    decreases |attrs|
  {
    if |attrs| == 0 then Ok(DefinitionScan(None, map[]))
    else
      match ScanDefinition(attrs[..|attrs| - 1])
      case Err(p) => Err(p)
      case Ok(st) => DefinitionStep(st, attrs[|attrs| - 1])
  }

  /** `parse_langpack_definition` as a value: the scan, which must have found a name. */
  function Definition(e: ItemEnum): Result<LangpackDefinition, Panic> {
    match ScanDefinition(e.attrs)
    case Err(p) => Err(p)
    case Ok(st) =>
      if st.name.Some? then Ok(LangpackDefinition(st.name.value, st.languages))
      else Err(Panic(LANGPACK_FORMAT_PANIC))
  }

  /** `parse_langpack_definition`: reads the enum's attributes in order. */
  method ParseLangpackDefinition(e: ItemEnum) returns (r: Result<LangpackDefinition, Panic>)
    ensures r == Definition(e)
  {
    var attrs := e.attrs;
    var langpackName: Option<string> := None;
    var languages: map<string, string> := map[];
    var k := 0;
    while k < |attrs|
      invariant 0 <= k <= |attrs|
      invariant ScanDefinition(attrs[..k]) == Ok(DefinitionScan(langpackName, languages))
    {
      assert attrs[..k + 1][..k] == attrs[..k];
      var meta := MetaOf(attrs[k]);
      if meta.Err? {
        ScanDefinitionStaysFailed(attrs, k + 1);
        return Err(meta.error);
      }
      var name := GetAttrName(meta.value);
      if name == ATTR_NAME_LANGPACK {
        var parsed := ParseLangpackAttr(meta.value);
        if parsed.Err? {
          ScanDefinitionStaysFailed(attrs, k + 1);
          return Err(parsed.error);
        }
        langpackName := Some(parsed.value);
      } else if name == ATTR_NAME_LANGUAGE {
        var entry := ParseLanguageAttr(meta.value);
        if entry.Err? {
          ScanDefinitionStaysFailed(attrs, k + 1);
          return Err(entry.error);
        }
        languages := languages[entry.value.0 := entry.value.1];
      }
      k := k + 1;
    }
    assert attrs[..k] == attrs;
    if langpackName.Some? {
      r := Ok(LangpackDefinition(langpackName.value, languages));
    } else {
      r := Err(Panic(LANGPACK_FORMAT_PANIC));
    }
  }

  /** Once the scan of a prefix panics, the scan of the whole panics in the same way. */
  lemma {:induction false} ScanDefinitionStaysFailed(attrs: seq<Attribute>, k: nat)
    requires k <= |attrs|
    requires ScanDefinition(attrs[..k]).Err?
    ensures ScanDefinition(attrs) == ScanDefinition(attrs[..k])
    decreases |attrs| - k
  {
    if k < |attrs| {
      assert attrs[..k + 1][..k] == attrs[..k];
      ScanDefinitionStaysFailed(attrs, k + 1);
    } else {
      assert attrs[..k] == attrs;
    }
  }

  /** No readable attribute is named `langpack`. */
  predicate NoLangpackAttr(attrs: seq<Attribute>) {
    forall i :: 0 <= i < |attrs| ==> attrs[i].meta.None? || GetAttrName(attrs[i].meta.value) != ATTR_NAME_LANGPACK
  }

  /** Without a `langpack` attribute the scan finds no name. */
  lemma {:induction false} ScanWithoutLangpackHasNoName(attrs: seq<Attribute>)
    requires NoLangpackAttr(attrs)
    ensures ScanDefinition(attrs).Ok? ==> ScanDefinition(attrs).value.name.None?
    decreases |attrs|
  {
    if |attrs| > 0 {
      var prefix := attrs[..|attrs| - 1];
      assert forall i :: 0 <= i < |prefix| ==> prefix[i] == attrs[i];
      ScanWithoutLangpackHasNoName(prefix);
    }
  }

  /** An enum without a `langpack` attribute panics. */
  lemma NoLangpackAttrPanics(e: ItemEnum)
    requires NoLangpackAttr(e.attrs)
    ensures Definition(e).Err?
  {
    ScanWithoutLangpackHasNoName(e.attrs);
  }

  /** A later `language` attribute with the same code replaces the display value of an earlier one. */
  lemma LaterLanguageOverwrites(attrs: seq<Attribute>, code: string, earlier: string, later: string)
    requires ScanDefinition(attrs).Ok?
    ensures var st := ScanDefinition(attrs).value;
      var a := Attribute(Some(List(ATTR_NAME_LANGUAGE, [
        NestedNameValue(MetaNameValue(ATTR_NAME_LANGUAGE_CODE, Str(code))),
        NestedNameValue(MetaNameValue(ATTR_NAME_LANGUAGE_VALUE, Str(later)))])));
      ScanDefinition(attrs + [a]) == Ok(st.(languages := st.languages[code := later]))
  {
    var a := Attribute(Some(List(ATTR_NAME_LANGUAGE, [
      NestedNameValue(MetaNameValue(ATTR_NAME_LANGUAGE_CODE, Str(code))),
      NestedNameValue(MetaNameValue(ATTR_NAME_LANGUAGE_VALUE, Str(later)))])));
    assert (attrs + [a])[..|attrs + [a]| - 1] == attrs;
    PairAttrMeaning(a.meta.value, ATTR_NAME_LANGUAGE_CODE, ATTR_NAME_LANGUAGE_VALUE, LANGUAGE_FORMAT_PANIC);
    var nested := a.meta.value.nested;
    assert nested[..1] == [nested[0]];
    assert nested[..1][..0] == [];
  }

  // ---------------------------------------------------------------- parse_messages

  /** One attribute of a variant: a `msg` entry, or nothing. */
  function MessageStep(m: map<string, string>, a: Attribute): Result<map<string, string>, Panic> {
    match MetaOf(a)
    case Err(p) => Err(p)
    case Ok(meta) =>
      if GetAttrName(meta) == ATTR_NAME_MESSAGE then
        match PairAttr(meta, ATTR_NAME_MESSAGE_LANGUAGE, ATTR_NAME_MESSAGE_VALUE, MESSAGE_FORMAT_PANIC)
        case Err(p) => Err(p)
        case Ok(entry) => Ok(m[entry.0 := entry.1])
      else Ok(m)
  }

  /** `msgs_of_attr`: a variant's messages by language code, a later one for a code replacing an earlier. */
  function VariantMessages(attrs: seq<Attribute>): Result<map<string, string>, Panic>
    decreases |attrs|
  {
    if |attrs| == 0 then Ok(map[])
    else
      match VariantMessages(attrs[..|attrs| - 1])
      case Err(p) => Err(p)
      case Ok(m) => MessageStep(m, attrs[|attrs| - 1])
  }

  /**
   * One variant added to the tables: fewer message languages than defined languages panics,
   * as does a defined language without a message (the `unreachable!()` arm); otherwise each
   * language's list grows by that variant's message.
   */
  function AddVariant(languages: map<string, string>, messages: map<string, seq<string>>, v: Variant): Result<map<string, seq<string>>, Panic> {
    match VariantMessages(v.attrs)
    case Err(p) => Err(p)
    case Ok(m) =>
      if |m| < |languages| then Err(MissingMessagesPanic(v.ident))
      else if !(messages.Keys <= m.Keys) then Err(Panic(UNREACHABLE_PANIC))
      else Ok(map l | l in messages :: messages[l] + [m[l]])
  }

  /** The variants read in order, starting from an empty list per defined language. */
  function ScanMessages(languages: map<string, string>, variants: seq<Variant>): Result<map<string, seq<string>>, Panic>
    decreases |variants|
  {
    if |variants| == 0 then Ok(map l | l in languages :: [])
    else
      match ScanMessages(languages, variants[..|variants| - 1])
      case Err(p) => Err(p)
      case Ok(messages) => AddVariant(languages, messages, variants[|variants| - 1])
  }

  /** `parse_messages` as a value. */
  function Messages(definition: LangpackDefinition, e: ItemEnum): Result<Langpack, Panic> {
    match ScanMessages(definition.languages, e.variants)
    case Err(p) => Err(p)
    case Ok(messages) => Ok(Langpack(definition, messages))
  }

  /** Variant `v` gives `text` as its message for language `l`. */
  predicate HasMessage(v: Variant, l: string, text: string) {
    VariantMessages(v.attrs).Ok? && l in VariantMessages(v.attrs).value && VariantMessages(v.attrs).value[l] == text
  }

  /** Adding a variant appends its message for each language and keeps the languages. */
  lemma AddVariantAppends(languages: map<string, string>, messages: map<string, seq<string>>, v: Variant)
    requires AddVariant(languages, messages, v).Ok?
    ensures var after := AddVariant(languages, messages, v).value;
      && after.Keys == messages.Keys
      && forall l :: l in after ==>
        && |after[l]| == |messages[l]| + 1
        && after[l][..|messages[l]|] == messages[l]
        && HasMessage(v, l, after[l][|messages[l]|])
  {
  }

  /** The list of language `l` holds, at each index, the message of the variant at that index. */
  lemma {:induction false} MessagesOfLanguage(languages: map<string, string>, variants: seq<Variant>, l: string)
    requires ScanMessages(languages, variants).Ok?
    requires l in languages
    ensures var messages := ScanMessages(languages, variants).value;
      && l in messages
      && |messages[l]| == |variants|
      && forall i :: 0 <= i < |variants| ==> HasMessage(variants[i], l, messages[l][i])
    decreases |variants|
  {
    if |variants| > 0 {
      var prefix := variants[..|variants| - 1];
      var v := variants[|variants| - 1];
      MessagesOfLanguage(languages, prefix, l);
      var before := ScanMessages(languages, prefix).value;
      assert ScanMessages(languages, variants) == AddVariant(languages, before, v);
      AddVariantAppends(languages, before, v);
      var list := ScanMessages(languages, variants).value[l];
      forall i | 0 <= i < |variants|
        ensures HasMessage(variants[i], l, list[i])
      {
        if i < |prefix| {
          assert variants[i] == prefix[i];
          assert list[i] == list[..|before[l]|][i];
        } else {
          assert variants[i] == v;
        }
      }
    }
  }

  /**
   * Every defined language gets exactly one message per variant, in declaration order:
   * the message that variant gives for that language.
   */
  lemma OneMessagePerVariant(languages: map<string, string>, variants: seq<Variant>)
    requires ScanMessages(languages, variants).Ok?
    ensures var messages := ScanMessages(languages, variants).value;
      && messages.Keys == languages.Keys
      && forall l :: l in messages ==>
        && |messages[l]| == |variants|
        && forall i :: 0 <= i < |variants| ==> HasMessage(variants[i], l, messages[l][i])
  {
    ScanMessagesKeys(languages, variants);
    forall l | l in languages {
      MessagesOfLanguage(languages, variants, l);
    }
  }

  /** A variant with fewer message languages than defined languages stops the scan with its panic. */
  lemma TooFewMessagesPanics(languages: map<string, string>, variants: seq<Variant>, v: Variant)
    requires ScanMessages(languages, variants).Ok?
    requires VariantMessages(v.attrs).Ok? && |VariantMessages(v.attrs).value| < |languages|
    ensures ScanMessages(languages, variants + [v]) == Err(MissingMessagesPanic(v.ident))
  {
    assert (variants + [v])[..|variants + [v]| - 1] == variants;
  }

  /** The messages' keys are always the defined languages. */
  lemma {:induction false} ScanMessagesKeys(languages: map<string, string>, variants: seq<Variant>)
    requires ScanMessages(languages, variants).Ok?
    ensures ScanMessages(languages, variants).value.Keys == languages.Keys
    decreases |variants|
  {
    if |variants| > 0 {
      ScanMessagesKeys(languages, variants[..|variants| - 1]);
    }
  }

  /**
   * A variant that has as many message languages as defined ones only by counting a language
   * that is not defined, while missing a defined one, reaches the `unreachable!()` arm.
   */
  lemma MissingDefinedLanguagePanics(languages: map<string, string>, variants: seq<Variant>, v: Variant, missing: string)
    requires ScanMessages(languages, variants).Ok?
    requires VariantMessages(v.attrs).Ok? && |VariantMessages(v.attrs).value| >= |languages|
    requires missing in languages && missing !in VariantMessages(v.attrs).value
    ensures ScanMessages(languages, variants + [v]) == Err(Panic(UNREACHABLE_PANIC))
  {
    assert (variants + [v])[..|variants + [v]| - 1] == variants;
    ScanMessagesKeys(languages, variants);
  }

  /** Of two `msg` attributes for the same language, the last one is the variant's message. */
  lemma LastMessageWins(attrs: seq<Attribute>, language: string, text: string)
    requires VariantMessages(attrs).Ok?
    ensures var a := Attribute(Some(List(ATTR_NAME_MESSAGE, [
        NestedNameValue(MetaNameValue(ATTR_NAME_MESSAGE_LANGUAGE, Str(language))),
        NestedNameValue(MetaNameValue(ATTR_NAME_MESSAGE_VALUE, Str(text)))])));
      VariantMessages(attrs + [a]) == Ok(VariantMessages(attrs).value[language := text])
  {
    var a := Attribute(Some(List(ATTR_NAME_MESSAGE, [
      NestedNameValue(MetaNameValue(ATTR_NAME_MESSAGE_LANGUAGE, Str(language))),
      NestedNameValue(MetaNameValue(ATTR_NAME_MESSAGE_VALUE, Str(text)))])));
    assert (attrs + [a])[..|attrs + [a]| - 1] == attrs;
    PairAttrMeaning(a.meta.value, ATTR_NAME_MESSAGE_LANGUAGE, ATTR_NAME_MESSAGE_VALUE, MESSAGE_FORMAT_PANIC);
    var nested := a.meta.value.nested;
    assert nested[..1] == [nested[0]];
    assert nested[..1][..0] == [];
  }

  /** The inner loop of `parse_messages`: a variant's `msg` attributes read into `msgs_of_attr`. */
  method CollectVariantMessages(attrs: seq<Attribute>) returns (r: Result<map<string, string>, Panic>)
    ensures r == VariantMessages(attrs)
  {
    var msgsOfAttr: map<string, string> := map[];
    var j := 0;
    while j < |attrs|
      invariant 0 <= j <= |attrs|
      invariant VariantMessages(attrs[..j]) == Ok(msgsOfAttr)
    {
      assert attrs[..j + 1][..j] == attrs[..j];
      var meta := MetaOf(attrs[j]);
      if meta.Err? {
        VariantMessagesStaysFailed(attrs, j + 1);
        return Err(meta.error);
      }
      if GetAttrName(meta.value) == ATTR_NAME_MESSAGE {
        var entry := ParseMsgAttr(meta.value);
        if entry.Err? {
          VariantMessagesStaysFailed(attrs, j + 1);
          return Err(entry.error);
        }
        msgsOfAttr := msgsOfAttr[entry.value.0 := entry.value.1];
      }
      j := j + 1;
    }
    assert attrs[..j] == attrs;
    r := Ok(msgsOfAttr);
  }

  /**
   * The body of `parse_messages`' loop: one variant's messages read, checked against the
   * defined languages, and appended to each language's list.
   */
  method AppendVariantMessages(languages: map<string, string>, messages: map<string, seq<string>>, variant: Variant)
    returns (r: Result<map<string, seq<string>>, Panic>)
    ensures r == AddVariant(languages, messages, variant)
  {
    var msgsOfAttr := CollectVariantMessages(variant.attrs);
    if msgsOfAttr.Err? {
      return Err(msgsOfAttr.error);
    }
    if |msgsOfAttr.value| < |languages| {
      return Err(MissingMessagesPanic(variant.ident));
    }
    if !(messages.Keys <= msgsOfAttr.value.Keys) {
      return Err(Panic(UNREACHABLE_PANIC));
    }
    r := Ok(map l | l in messages :: messages[l] + [msgsOfAttr.value[l]]);
  }

  /**
   * `parse_messages`: one list per defined language; for each variant its messages are
   * checked against the defined languages, and each list gets that variant's message.
   */
  method ParseMessages(definition: LangpackDefinition, e: ItemEnum) returns (r: Result<Langpack, Panic>)
    ensures r == Messages(definition, e)
  {
    var languages := definition.languages;
    var messages: map<string, seq<string>> := map l | l in languages :: [];
    var variants := e.variants;
    var k := 0;
    while k < |variants|
      invariant 0 <= k <= |variants|
      invariant ScanMessages(languages, variants[..k]) == Ok(messages)
    {
      assert variants[..k + 1][..k] == variants[..k];
      var next := AppendVariantMessages(languages, messages, variants[k]);
      if next.Err? {
        ScanMessagesStaysFailed(languages, variants, k + 1);
        return Err(next.error);
      }
      messages := next.value;
      k := k + 1;
    }
    assert variants[..k] == variants;
    r := Ok(Langpack(definition, messages));
  }

  lemma {:induction false} VariantMessagesStaysFailed(attrs: seq<Attribute>, k: nat)
    requires k <= |attrs|
    requires VariantMessages(attrs[..k]).Err?
    ensures VariantMessages(attrs) == VariantMessages(attrs[..k])
    decreases |attrs| - k
  {
    if k < |attrs| {
      assert attrs[..k + 1][..k] == attrs[..k];
      VariantMessagesStaysFailed(attrs, k + 1);
    } else {
      assert attrs[..k] == attrs;
    }
  }

  lemma {:induction false} ScanMessagesStaysFailed(languages: map<string, string>, variants: seq<Variant>, k: nat)
    requires k <= |variants|
    requires ScanMessages(languages, variants[..k]).Err?
    ensures ScanMessages(languages, variants) == ScanMessages(languages, variants[..k])
    decreases |variants| - k
  {
    if k < |variants| {
      assert variants[..k + 1][..k] == variants[..k];
      ScanMessagesStaysFailed(languages, variants, k + 1);
    } else {
      assert variants[..k] == variants;
    }
  }

  // ---------------------------------------------------------------- search_for_langpack

  /**
   * The first item `is_langpack_enum` accepts, testing the items in order; a panic while
   * testing an earlier item is that panic.
   */
  function FirstLangpackEnum(items: seq<Item>): (r: Result<Option<ItemEnum>, Panic>)
    ensures r.Ok? && r.value.Some? ==>
      exists i :: (0 <= i < |items| && items[i] == Enum(r.value.value) && LangpackEnumTest(items[i]) == Ok(true)
        && forall j :: 0 <= j < i ==> LangpackEnumTest(items[j]) == Ok(false))
    ensures r.Ok? && r.value.None? ==> forall j :: 0 <= j < |items| ==> LangpackEnumTest(items[j]) == Ok(false)
    decreases |items|
  {
    if |items| == 0 then Ok(None)
    else
      match LangpackEnumTest(items[0])
      case Err(p) => Err(p)
      case Ok(b) =>
        if b then Ok(Some(items[0].e))
        else
          var rest := FirstLangpackEnum(items[1..]);
          assert forall j :: 1 <= j < |items| ==> items[j] == items[1..][j - 1];
          rest
  }

  /** `search_for_langpack` as a value, on the parsed file (`None` when it does not parse). */
  function SearchResult(parsed: Option<seq<Item>>): Result<Option<Langpack>, Panic> {
    match parsed
    case None => Err(Panic(PARSE_FILE_PANIC))
    case Some(items) =>
      match FirstLangpackEnum(items)
      case Err(p) => Err(p)
      case Ok(None) => Ok(None)
      case Ok(Some(e)) =>
        match Definition(e)
        case Err(p) => Err(p)
        case Ok(definition) =>
          match Messages(definition, e)
          case Err(p) => Err(p)
          case Ok(langpack) => Ok(Some(langpack))
  }

  /**
   * `search_for_langpack`: the langpack of the first enum carrying both attributes, or
   * `None` when there is no such enum.
   */
  method SearchForLangpack(parsed: Option<seq<Item>>) returns (r: Result<Option<Langpack>, Panic>)
    ensures r == SearchResult(parsed)
  {
    if parsed.None? {
      return Err(Panic(PARSE_FILE_PANIC));
    }
    var items := parsed.value;
    var item: Option<ItemEnum> := None;
    var k := 0;
    while k < |items|
      invariant 0 <= k <= |items|
      invariant FirstLangpackEnum(items) == FirstLangpackEnum(items[k..])
    {
      var accepted := IsLangpackEnum(items[k]);
      if accepted.Err? {
        return Err(accepted.error);
      }
      if accepted.value {
        item := Some(items[k].e);
        break;
      }
      assert items[k..][1..] == items[k + 1..];
      k := k + 1;
    }
    if item.None? {
      assert items[k..] == [];
      return Ok(None);
    }
    var definition := ParseLangpackDefinition(item.value);
    if definition.Err? {
      return Err(definition.error);
    }
    var langpack := ParseMessages(definition.value, item.value);
    if langpack.Err? {
      return Err(langpack.error);
    }
    r := Ok(Some(langpack.value));
  }
}
