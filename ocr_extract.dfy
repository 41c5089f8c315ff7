/**
 * The post-processing half of `Doc2Fields` (lib/ocr.ts): guards on the file
 * kind and the model, clean-up of the model's reply text, and the reading of
 * the parsed reply into a document result. The model call itself is a
 * parameter: its reply arrives as `reply`, JSON.parse as `parse`.
 */
module OcrExtract {
  import opened Results
  import opened Js
  import opened Text

  datatype Model = Claude | Gpt5

  const MimeError := "Images and PDFs only"
  const PdfError := "OpenAI does not support PDFs, use claude"
  const ParsePrefix := "Failed to parse AI response: "
  const FormatPrefix := "AI returned invalid data format: "

  /** `mimetype.startsWith('image/') || mimetype === 'application/pdf'` */
  predicate Accepted(mimetype: string) {
    StartsWith(mimetype, "image/") || mimetype == "application/pdf"
  }

  /**
   * The reply text: for gpt5 the first choice's content, '{}' when it is
   * missing or empty; for claude the first text block, '{}' when there is none.
   */
  function ReplyText(model: Model, reply: Option<string>): (r: string)
    ensures reply.None? ==> r == "{}"
    ensures reply.Some? && reply.value != "" ==> r == reply.value
    ensures reply == Some("") ==> r == (if model == Gpt5 then "{}" else "")
  {
    match model
    case Gpt5 => if reply.Some? && reply.value != "" then reply.value else "{}"
    case Claude => if reply.Some? then reply.value else "{}"
  }

  /** Fences removed, trimmed, then the first `{…}` or `[…]` span when there is one. */
  function CleanText(text: string): string {
    ExtractSpan(Trim(StripFences(text)), true)
  }

  /** A JSON object wrapped in a ```json fence comes out of the clean-up exactly as it went in. */
  lemma CleanFencedObject(body: string)
    requires '`' !in body && |body| >= 2 && body[0] == '{' && body[|body| - 1] == '}'
    ensures CleanText("```json\n" + body + "\n```") == body
  {
    StripFencedBlock(body);
    TrimOfUnpadded(body);
    SpanOfBracketed(body, true);
  }

  /**
   * Cleaning a cleaned text changes nothing: no fence survives the first
   * clean-up, the result is already trimmed, and its span is itself.
   */
  lemma CleanTextIdempotent(text: string)
    ensures CleanText(CleanText(text)) == CleanText(text)
  {
    var s := StripFences(text);
    var t := Trim(s);
    var c := CleanText(text);
    CleanedHasNoFence(text);
    RemoveFenceNoFence(c, "```json");
    RemoveFenceNoFence(c, "```");
    assert StripFences(c) == c;
    TrimIdempotent(s);
    SpanTrimmed(t);
    SpanIdempotent(t, true);
  }

  /** The cleaned text is a piece of the fence-free text, so it has no fence either. */
  lemma CleanedHasNoFence(text: string)
    ensures NoFence(CleanText(text))
  {
    StripFencesTwice(text);
    NoFenceTrim(StripFences(text));
    NoFenceSpan(Trim(StripFences(text)), true);
  }

  /** The span of a trimmed text is itself trimmed. */
  lemma SpanTrimmed(t: string)
    requires Trim(t) == t
    ensures Trim(ExtractSpan(t, true)) == ExtractSpan(t, true)
  {
    if FirstOpen(t, 0, true).Some? {
      var r := ExtractSpan(t, true);
      SpanBrackets(t, true);
      assert !IsSpace(r[0]) && !IsSpace(r[|r| - 1]);
      TrimOfUnpadded(r);
    }
  }

  /** The value `doctypeid` and `matched` come from, and what `periodo` reads. */
  datatype DocResult = DocResult(doctypeid: Option<string>, matched: bool, multiple: bool,
                                 periodo: Value, data: Value)

  /** `Object.keys(parsed).find(k => schemas[k])` */
  function FirstKnown(keys: seq<string>, schemas: set<string>): (r: Option<string>)
    ensures r.None? <==> forall k :: k in keys ==> k !in schemas
    ensures r.Some? ==>
      exists i :: 0 <= i < |keys| && keys[i] == r.value && r.value in schemas &&
        (forall j :: 0 <= j < i ==> keys[j] !in schemas)
  {
    if keys == [] then None
    else if keys[0] in schemas then Some(keys[0])
    else
      var r := FirstKnown(keys[1..], schemas);
      assert forall k :: k in keys <==> k == keys[0] || k in keys[1..];
      assert r.Some? ==>
        exists i :: 1 <= i < |keys| && keys[i] == r.value && r.value in schemas &&
          (forall j :: 1 <= j < i ==> keys[j] !in schemas);
      r
  }

  /**
   * `doctype || Object.keys(parsed).find(k => schemas[k]) || Object.keys(parsed)[0]`
   * for a non-null reply: the requested type; else the first key the
   * catalogue knows, unless that key is the falsy ''; else the first key;
   * else undefined.
   */
  function SchemaKey(doctype: Option<string>, parsed: Value, schemas: set<string>): (r: Value)
    ensures r.Str? || r == Undefined
    ensures doctype.Some? && doctype.value != "" ==> r == Str(doctype.value)
    ensures !(doctype.Some? && doctype.value != "") ==>
      var found := FirstKnown(Keys(parsed), schemas);
      (found.Some? && found.value != "" ==> r == Str(found.value))
      && (!(found.Some? && found.value != "") && |Keys(parsed)| > 0 ==> r == Str(Keys(parsed)[0]))
    ensures r == Undefined <==> !(doctype.Some? && doctype.value != "") && |Keys(parsed)| == 0
  {
    if doctype.Some? && doctype.value != "" then Str(doctype.value)
    else match FirstKnown(Keys(parsed), schemas)
      case Some(k) =>
        if k != "" then Str(k)
        else
          assert k in Keys(parsed);
          Str(Keys(parsed)[0])
      case None => if |Keys(parsed)| > 0 then Str(Keys(parsed)[0]) else Undefined
  }

  /** The V8 message for reading a property of null or undefined. */
  function ReadError(base: Value, key: string): string {
    "Cannot read properties of " + (if base == Null then "null" else "undefined") + " (reading '" + key + "')"
  }

  const KeysError := "Cannot convert undefined or null to object"

  /** `periodo`: the first item's, for a non-empty array; the data's own when truthy; null otherwise. */
  function Periodo(data: Value): (r: Value)
    requires !(data.Arr? && |data.items| > 0 && IsNullish(data.items[0]))
    ensures data.Arr? && |data.items| > 0 ==>
      r == (if Truthy(Get(data.items[0], "periodo")) then Get(data.items[0], "periodo") else Null)
    ensures !(data.Arr? && |data.items| > 0) && Truthy(Get(data, "periodo")) ==> r == Get(data, "periodo")
    ensures !(data.Arr? && |data.items| > 0) && !Truthy(Get(data, "periodo")) ==> r == Null
  {
    if data.Arr? && |data.items| > 0 then Or(Get(data.items[0], "periodo"), Null)
    else if Truthy(Get(data, "periodo")) then Get(data, "periodo")
    else Null
  }

  /** Lines 108-131: from the parsed reply to the document result. */
  function Interpret(parsed: Value, text: string, doctype: Option<string>, schemas: set<string>): (r: Result<DocResult>)
    ensures IsNullish(parsed) ==>
      r == Err(if doctype.Some? && doctype.value != "" then ReadError(parsed, doctype.value) else KeysError)
    ensures !IsNullish(parsed) ==>
      var key := SchemaKey(doctype, parsed, schemas);
      var k := if key.Str? then key.s else "undefined";
      var data := Or(Get(parsed, k), parsed);
      (data.Str? ==> r == Err(FormatPrefix + text))
      && (data.Arr? && |data.items| > 0 && IsNullish(data.items[0]) ==> r == Err(ReadError(data.items[0], "periodo")))
      && (r.Ok? <==> !data.Str? && !(data.Arr? && |data.items| > 0 && IsNullish(data.items[0])))
      && (r.Ok? ==>
            r.value.data == data && (r.value.matched <==> k in schemas)
            && r.value.doctypeid == (if r.value.matched && key.Str? && key.s != "" then Some(key.s) else None)
            && r.value.periodo == Periodo(data))
    ensures r.Ok? ==> !r.value.data.Str? && !IsNullish(r.value.data)
    ensures r.Ok? ==> (r.value.multiple <==> r.value.data.Arr?)
    ensures r.Ok? && r.value.doctypeid.Some? ==> r.value.matched && r.value.doctypeid.value in schemas
    ensures r.Ok? ==> r.value.periodo == Null || Truthy(r.value.periodo)
  {
    var given := doctype.Some? && doctype.value != "";
    if IsNullish(parsed) then
      Err(if given then ReadError(parsed, doctype.value) else KeysError)
    else
      var key := SchemaKey(doctype, parsed, schemas);
      var k := if key.Str? then key.s else "undefined";
      var data := Or(Get(parsed, k), parsed);
      if data.Str? then Err(FormatPrefix + text)
      else if data.Arr? && |data.items| > 0 && IsNullish(data.items[0]) then
        Err(ReadError(data.items[0], "periodo"))
      else
        var matched := k in schemas;
        var id := if matched && key.Str? && key.s != "" then Some(key.s) else None;
        Ok(DocResult(id, matched, data.Arr?, Periodo(data), data))
  }

  /**
   * `Doc2Fields` with the model call replaced by its reply: the guards, the
   * clean-up, JSON.parse and the reading of the result, in the source's order.
   */
  function Doc2Fields(mimetype: string, model: Model, doctype: Option<string>, reply: Option<string>,
                      schemas: set<string>, parse: string -> Result<Value>): (r: Result<DocResult>)
    ensures !Accepted(mimetype) ==> r == Err(MimeError)
    ensures Accepted(mimetype) && model == Gpt5 && mimetype == "application/pdf" ==> r == Err(PdfError)
    ensures Accepted(mimetype) && !(model == Gpt5 && mimetype == "application/pdf") ==>
      var text := CleanText(ReplyText(model, reply));
      r == match parse(text)
           case Err(_) => Err(ParsePrefix + text)
           case Ok(parsed) => Interpret(parsed, text, doctype, schemas)
  {
    var isImage := StartsWith(mimetype, "image/");
    var isPdf := mimetype == "application/pdf";
    if !isImage && !isPdf then Err(MimeError)
    else if model == Gpt5 && isPdf then Err(PdfError)
    else
      var text := CleanText(ReplyText(model, reply));
      match parse(text)
      case Err(_) => Err(ParsePrefix + text)
      case Ok(parsed) => Interpret(parsed, text, doctype, schemas)
  }

  /** The file-kind error is reported exactly when the type is neither an image nor a PDF. */
  lemma MimeGuard(mimetype: string, model: Model, doctype: Option<string>, reply: Option<string>,
                  schemas: set<string>, parse: string -> Result<Value>)
    ensures Doc2Fields(mimetype, model, doctype, reply, schemas, parse) == Err(MimeError) <==> !Accepted(mimetype)
  {
    var r := Doc2Fields(mimetype, model, doctype, reply, schemas, parse);
    if Accepted(mimetype) && r.Err? {
      var m := r.message;
      assert m[0] != MimeError[0] by {
        if model == Gpt5 && mimetype == "application/pdf" {
          assert m == PdfError;
        } else {
          var text := CleanText(ReplyText(model, reply));
          match parse(text)
          case Err(_) =>
            assert m == ParsePrefix + text;
          case Ok(parsed) =>
            InterpretErrors(parsed, text, doctype, schemas);
        }
      }
    }
  }

  /**
   * The reading of a parsed reply fails with one of three messages: the
   * read of a property of null or undefined (the requested type, or the
   * first slip's `periodo`), `Object.keys` of null, or the invalid-format
   * message with the text. None of them is the file-kind message.
   */
  lemma InterpretErrors(parsed: Value, text: string, doctype: Option<string>, schemas: set<string>)
    ensures var r := Interpret(parsed, text, doctype, schemas);
      r.Err? ==>
        (r.message == KeysError || r.message == FormatPrefix + text
         || (doctype.Some? && (r.message == ReadError(Null, doctype.value) || r.message == ReadError(Undefined, doctype.value)))
         || r.message == ReadError(Null, "periodo") || r.message == ReadError(Undefined, "periodo"))
    ensures var r := Interpret(parsed, text, doctype, schemas);
      r.Err? ==> |r.message| > 0 && (r.message[0] == 'A' || r.message[0] == 'C')
  {
  }

  /** Whatever the reply, a payload that is text is never returned as data. */
  lemma StringPayloadRejected(mimetype: string, model: Model, doctype: Option<string>, reply: Option<string>,
                              schemas: set<string>, parse: string -> Result<Value>)
    requires Accepted(mimetype) && !(model == Gpt5 && mimetype == "application/pdf")
    requires var text := CleanText(ReplyText(model, reply));
      parse(text).Ok? && !IsNullish(parse(text).value)
      && Or(Get(parse(text).value, if SchemaKey(doctype, parse(text).value, schemas).Str?
                                    then SchemaKey(doctype, parse(text).value, schemas).s
                                    else "undefined"), parse(text).value).Str?
    ensures var text := CleanText(ReplyText(model, reply));
      Doc2Fields(mimetype, model, doctype, reply, schemas, parse) == Err(FormatPrefix + text)
  {
  }

  /**
   * Without a requested type, the first key of the reply that the catalogue
   * knows is chosen, wherever it stands; unknown keys are ignored.
   */
  lemma AutoDetectPicksKnownKey(props: seq<Prop>, text: string, schemas: set<string>, i: nat)
    requires i < |props| && props[i].key in schemas && props[i].key != ""
    requires forall j :: 0 <= j < i ==> props[j].key !in schemas
    requires Truthy(Lookup(props, props[i].key)) && !Lookup(props, props[i].key).Str?
    requires !(Lookup(props, props[i].key).Arr? && |Lookup(props, props[i].key).items| > 0
               && IsNullish(Lookup(props, props[i].key).items[0]))
    ensures var r := Interpret(Obj(props), text, None, schemas);
      r.Ok? && r.value.doctypeid == Some(props[i].key) && r.value.matched
      && r.value.data == Lookup(props, props[i].key)
  {
    SchemaKeyAt(props, schemas, i);
    InterpretKnown(Obj(props), text, schemas, props[i].key);
  }

  lemma SchemaKeyAt(props: seq<Prop>, schemas: set<string>, i: nat)
    requires i < |props| && props[i].key in schemas && props[i].key != ""
    requires forall j :: 0 <= j < i ==> props[j].key !in schemas
    ensures SchemaKey(None, Obj(props), schemas) == Str(props[i].key)
  {
    var keys := KeysOf(props);
    FirstKnownAt(keys, schemas, i);
  }

  /** A known key whose value is a usable object or array is the detected type. */
  lemma InterpretKnown(parsed: Value, text: string, schemas: set<string>, k: string)
    requires parsed.Obj? && SchemaKey(None, parsed, schemas) == Str(k) && k in schemas && k != ""
    requires Truthy(Get(parsed, k)) && !Get(parsed, k).Str?
    requires !(Get(parsed, k).Arr? && |Get(parsed, k).items| > 0 && IsNullish(Get(parsed, k).items[0]))
    ensures var data := Get(parsed, k);
      Interpret(parsed, text, None, schemas) == Ok(DocResult(Some(k), true, data.Arr?, Periodo(data), data))
  {
    assert Or(Get(parsed, k), parsed) == Get(parsed, k);
  }

  /**
   * A known key that is the empty text is falsy, so the first key is used
   * instead: `{"foo": {}, "": {}}` with '' in the catalogue reads "foo",
   * unmatched.
   */
  lemma EmptyKnownKeyFallsBack(text: string)
    ensures var parsed := Obj([Prop("foo", Obj([])), Prop("", Obj([]))]);
      var r := Interpret(parsed, text, None, {""});
      SchemaKey(None, parsed, {""}) == Str("foo")
      && r.Ok? && !r.value.matched && r.value.doctypeid == None && r.value.data == Obj([])
  {
    var props := [Prop("foo", Obj([])), Prop("", Obj([]))];
    assert KeysOf(props) == ["foo", ""];
    FirstKnownAt(["foo", ""], {""}, 1);
  }

  /** The first known key is the one `find` returns. */
  lemma FirstKnownAt(keys: seq<string>, schemas: set<string>, i: nat)
    requires i < |keys| && keys[i] in schemas
    requires forall j :: 0 <= j < i ==> keys[j] !in schemas
    ensures FirstKnown(keys, schemas) == Some(keys[i])
  {
    var f := FirstKnown(keys, schemas);
    assert keys[i] in keys;
    var m :| 0 <= m < |keys| && keys[m] == f.value && f.value in schemas &&
      (forall j :: 0 <= j < m ==> keys[j] !in schemas);
    if m < i {
      assert keys[m] !in schemas;
    }
  }

  /** A reply with one known and one unknown key yields the known type. */
  lemma UnknownKeyIgnored(known: string, inner: Value, other: Value, text: string, schemas: set<string>)
    requires known in schemas && "foo" !in schemas && known != "foo" && known != ""
    requires inner.Obj? && !Truthy(Get(inner, "periodo"))
    ensures var r := Interpret(Obj([Prop(known, inner), Prop("foo", other)]), text, None, schemas);
      r.Ok? && r.value.doctypeid == Some(known) && r.value.matched && !r.value.multiple && r.value.data == inner
      && r.value.periodo == Null
  {
    var props := [Prop(known, inner), Prop("foo", other)];
    assert KeysOf(props) == [known, "foo"];
  }

  /** Two slips under one key: the result is flagged multiple and keeps both. */
  lemma MultiplePreserved(key: string, a: Value, b: Value, text: string, schemas: set<string>)
    requires key in schemas && key != "" && a.Obj? && b.Obj?
    ensures var r := Interpret(Obj([Prop(key, Arr([a, b]))]), text, None, schemas);
      r.Ok? && r.value.multiple && r.value.data == Arr([a, b]) && |r.value.data.items| == 2
      && r.value.periodo == Or(Get(a, "periodo"), Null)
  {
    assert KeysOf([Prop(key, Arr([a, b]))]) == [key];
  }

  /** A requested type is read directly, whether or not the catalogue knows it. */
  lemma RequestedTypeRead(parsed: Value, text: string, doctype: string, schemas: set<string>)
    requires doctype != "" && !IsNullish(parsed)
    ensures var r := Interpret(parsed, text, Some(doctype), schemas);
      var data := Or(Get(parsed, doctype), parsed);
      (data.Str? ==> r == Err(FormatPrefix + text))
      && (r.Ok? ==> r.value.data == data && (r.value.matched <==> doctype in schemas)
                    && (r.value.doctypeid.Some? <==> doctype in schemas))
  {
  }
}
