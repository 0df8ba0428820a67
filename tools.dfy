/** The tools the model may call: their catalogue (name, description, input
    schema), the handler each name is bound to, the classification of a
    fetched URL's content type into a result block, and the JSON wrapping of
    the knowledge-store handlers. The web search, the HTTP fetch and the
    embedding service are external and enter as parameters. */
module Tools {
  import opened Blocks
  import Db

  // ---------------------------------------------------------------------
  // str.split with an explicit separator
  // ---------------------------------------------------------------------

  /** `s.split(sep)`: the pieces between occurrences of `sep`, always at
      least one (the empty string splits into `[""]`). */
  function Split(s: string, sep: char): (parts: seq<string>)
    ensures |parts| >= 1
    decreases |s|
  {
    if |s| == 0 then [""]
    else
      var rest := Split(s[1..], sep);
      if s[0] == sep then [""] + rest else [[s[0]] + rest[0]] + rest[1..]
  }

  /** `sep.join(parts)`. */
  function Join(parts: seq<string>, sep: char): string
    requires |parts| >= 1
  {
    if |parts| == 1 then parts[0] else parts[0] + [sep] + Join(parts[1..], sep)
  }

  /** Splitting and joining again gives back the string, and no piece holds
      the separator. */
  lemma {:induction false} SplitJoin(s: string, sep: char)
    ensures Join(Split(s, sep), sep) == s
    ensures forall i :: 0 <= i < |Split(s, sep)| ==> sep !in Split(s, sep)[i]
  {
    if |s| > 0 {
      SplitJoin(s[1..], sep);
      var rest := Split(s[1..], sep);
      if s[0] == sep {
        assert Split(s, sep) == [""] + rest;
        assert ([""] + rest)[1..] == rest;
      } else {
        var parts := Split(s, sep);
        assert parts == [[s[0]] + rest[0]] + rest[1..];
        if |rest| > 1 {
          assert parts[1..] == rest[1..];
          assert Join(rest, sep) == rest[0] + [sep] + Join(rest[1..], sep);
        }
        assert s == [s[0]] + s[1..];
        forall i | 0 <= i < |parts| ensures sep !in parts[i] {
          if i > 0 { assert parts[i] == rest[i]; }
        }
      }
    }
  }

  /** A string without the separator is a single piece. */
  lemma {:induction false} SplitWithoutSeparator(s: string, sep: char)
    requires sep !in s
    ensures Split(s, sep) == [s]
  {
    if |s| > 0 {
      assert sep !in s[1..] by {
        forall i | 0 <= i < |s[1..]| ensures s[1..][i] != sep { assert s[1..][i] == s[i + 1]; }
      }
      SplitWithoutSeparator(s[1..], sep);
      assert [s[0]] + s[1..] == s;
    }
  }

  /** Splitting at the first separator: the part before it is the first
      piece and the rest splits on its own. */
  lemma {:induction false} SplitAtFirst(a: string, sep: char, b: string)
    requires sep !in a
    ensures Split(a + [sep] + b, sep) == [a] + Split(b, sep)
  {
    if |a| == 0 {
      assert a + [sep] + b == [sep] + b;
      assert ([sep] + b)[1..] == b;
    } else {
      var s := a + [sep] + b;
      assert s[0] == a[0] && s[1..] == a[1..] + [sep] + b;
      assert sep !in a[1..] by {
        forall i | 0 <= i < |a[1..]| ensures a[1..][i] != sep { assert a[1..][i] == a[i + 1]; }
      }
      SplitAtFirst(a[1..], sep, b);
      assert [a[0]] + a[1..] == a;
    }
  }

  // ---------------------------------------------------------------------
  // retreive_url: content type classification
  // ---------------------------------------------------------------------

  /** UTF-8 decoding of a body; a failure carries the decoder's message. */
  type Utf8Decoder = Bytes -> Result<string>

  /** What the HTTP GET returned: the Content-Type header, if any, and the
      body. */
  datatype HttpResponse = HttpResponse(contentType: Option<string>, data: Bytes)

  const ImageFormats: seq<string> := ["jpeg", "png", "gif", "webp"]
  const DocumentFormats: seq<string> := ["pdf", "csv", "doc", "docx", "xls", "xlsx", "html", "md"]

  /** The header value up to its first ';' (an absent header reads as ''). */
  function ContentTypeOf(header: Option<string>): string {
    Split(if header.Some? then header.value else "", ';')[0]
  }

  function PrimaryType(contentType: string): string {
    Split(contentType, '/')[0]
  }

  function SecondaryType(contentType: string): string {
    var parts := Split(contentType, '/');
    if |parts| > 1 then parts[1] else ""
  }

  /** A content type `retreive_url` returns as a document: a `text/` or
      `application/` type other than `application/json`. */
  predicate IsDocumentType(contentType: string) {
    !("application/json" <= contentType) && ("text/" <= contentType || "application/" <= contentType)
  }

  /** The result block of `retreive_url` for a response: an image when the
      primary type is `image` (format kept when supported, else jpeg), the
      decoded text for `application/json`, a document for any other `text/`
      or `application/` type (format kept when supported, else txt), and
      otherwise the decoded text behind a line naming the content type.
      Decoding raises on bytes that are not UTF-8. */
  function ClassifyResponse(response: HttpResponse, decode: Utf8Decoder): (r: Result<ContentBlock>)
    ensures r.Success? ==> r.value.Image? || r.value.Text? || r.value.Document?
    ensures (r.Success? && r.value.Image?) <==> PrimaryType(ContentTypeOf(response.contentType)) == "image"
    ensures r.Success? && r.value.Image? ==>
      && r.value.source == response.data && r.value.imageFormat in ImageFormats
      && var secondary := SecondaryType(ContentTypeOf(response.contentType));
         r.value.imageFormat == if secondary in ImageFormats then secondary else "jpeg"
    ensures (r.Success? && r.value.Document?) <==>
      PrimaryType(ContentTypeOf(response.contentType)) != "image" && IsDocumentType(ContentTypeOf(response.contentType))
    ensures r.Success? && r.value.Document? ==>
      && r.value.source == response.data && r.value.name == "document"
      && r.value.documentFormat in DocumentFormats + ["txt"]
      && var secondary := SecondaryType(ContentTypeOf(response.contentType));
         r.value.documentFormat == if secondary in DocumentFormats then secondary else "txt"
    ensures r.Failure? <==>
      && PrimaryType(ContentTypeOf(response.contentType)) != "image"
      && !IsDocumentType(ContentTypeOf(response.contentType))
      && decode(response.data).Failure?
    ensures r.Failure? ==> decode(response.data) == Failure(r.error)
    ensures r.Success? && r.value.Text? ==> decode(response.data).Success?
    ensures var ct := ContentTypeOf(response.contentType);
      r.Success? && r.value.Text? ==>
        r.value.text == if "application/json" <= ct then decode(response.data).value
                        else "Content-Type: " + ct + "\nContent:\n" + decode(response.data).value
  {
    var contentType := ContentTypeOf(response.contentType);
    var primary := PrimaryType(contentType);
    var secondary := SecondaryType(contentType);
    if primary == "image" then
      Success(Image(if secondary in ImageFormats then secondary else "jpeg", response.data))
    else if "application/json" <= contentType then
      (match decode(response.data)
       case Success(text) => Success(Text(text))
       case Failure(e) => Failure(e))
    else if "text/" <= contentType || "application/" <= contentType then
      Success(Document(if secondary in DocumentFormats then secondary else "txt", "document", response.data))
    else
      (match decode(response.data)
       case Success(text) => Success(Text("Content-Type: " + contentType + "\nContent:\n" + text))
       case Failure(e) => Failure(e))
  }

  /** The content type is the header up to its first ';': a prefix of the
      header holding no ';', followed by a ';' unless it is all of it. */
  lemma {:induction false} ContentTypeIsFirstField(header: string)
    ensures var ct := ContentTypeOf(Some(header));
      ct <= header && ';' !in ct && (|ct| < |header| ==> header[|ct|] == ';')
  {
    var ct := ContentTypeOf(Some(header));
    SplitJoin(header, ';');
    var parts := Split(header, ';');
    if |parts| > 1 {
      assert header == parts[0] + [';'] + Join(parts[1..], ';');
    }
  }

  /** Parameters after the first ';' (a charset, a boundary) never change
      the result. */
  lemma ParametersIgnored(mediaType: string, parameters: string, data: Bytes, decode: Utf8Decoder)
    requires ';' !in mediaType
    ensures ClassifyResponse(HttpResponse(Some(mediaType + ";" + parameters), data), decode)
         == ClassifyResponse(HttpResponse(Some(mediaType), data), decode)
  {
    SplitAtFirst(mediaType, ';', parameters);
    SplitWithoutSeparator(mediaType, ';');
  }

  /** The primary type is the part before the first '/', and the secondary
      type the part between the first and the second '/'. */
  lemma TypeSegments(primary: string, secondary: string, suffix: string)
    requires '/' !in primary && '/' !in secondary
    ensures PrimaryType(primary) == primary && SecondaryType(primary) == ""
    ensures PrimaryType(primary + "/" + secondary + suffix) == primary
    ensures suffix == [] || suffix[0] == '/' ==> SecondaryType(primary + "/" + secondary + suffix) == secondary
  {
    SplitWithoutSeparator(primary, '/');
    assert primary + "/" + secondary + suffix == primary + ['/'] + (secondary + suffix);
    SplitAtFirst(primary, '/', secondary + suffix);
    if suffix == [] {
      assert secondary + suffix == secondary;
      SplitWithoutSeparator(secondary, '/');
    } else if suffix[0] == '/' {
      assert secondary + suffix == secondary + ['/'] + suffix[1..];
      SplitAtFirst(secondary, '/', suffix[1..]);
    }
  }

  /** `application/json` is tested before the generic `application/`
      branch: it yields the decoded body as text, never a document. */
  lemma {:induction false} JsonIsText(subtype: string, data: Bytes, decode: Utf8Decoder)
    requires ';' !in subtype
    ensures var r := ClassifyResponse(HttpResponse(Some("application/json" + subtype), data), decode);
      r == (match decode(data) case Success(t) => Success(Text(t)) case Failure(e) => Failure(e))
  {
    var ct := "application/json" + subtype;
    assert ';' !in ct by {
      assert forall i :: 0 <= i < |ct| ==> ct[i] == if i < 16 then "application/json"[i] else subtype[i - 16];
    }
    SplitWithoutSeparator(ct, ';');
    assert ct == "application" + ['/'] + ("json" + subtype);
    SplitAtFirst("application", '/', "json" + subtype);
  }

  /** Without a Content-Type header the body is returned as text behind an
      empty content-type line. */
  lemma MissingHeaderIsText(data: Bytes, decode: Utf8Decoder)
    requires decode(data).Success?
    ensures ClassifyResponse(HttpResponse(None, data), decode)
         == Success(Text("Content-Type: \nContent:\n" + decode(data).value))
  {
    assert Split("", ';') == [""];
    assert Split("", '/') == [""];
    assert "Content-Type: " + "" + "\nContent:\n" == "Content-Type: \nContent:\n";
  }

  // ---------------------------------------------------------------------
  // The tool catalogue and the handler table
  // ---------------------------------------------------------------------

  /** The four handler functions. */
  datatype Handler = SearchWeb | RetreiveUrl | SnapshotKnowledge | SearchKnowledgeBase

  datatype ToolSpec = ToolSpec(name: string, description: string, inputSchema: JsonValue)

  /** The single keyword-only parameter each handler takes. */
  function ParameterOf(h: Handler): string {
    match h
    case SearchWeb => "query"
    case RetreiveUrl => "url"
    case SnapshotKnowledge => "content"
    case SearchKnowledgeBase => "question"
  }

  function HandlerName(h: Handler): string {
    match h
    case SearchWeb => "search_web"
    case RetreiveUrl => "retreive_url"
    case SnapshotKnowledge => "snapshot_knowledge"
    case SearchKnowledgeBase => "search_knowledge_base"
  }

  /** An object schema with one required string property. */
  function StringParameterSchema(parameter: string, description: string): JsonValue {
    JObject(map[
      "json" := JObject(map[
        "type" := JString("object"),
        "properties" := JObject(map[
          parameter := JObject(map["type" := JString("string"), "description" := JString(description)])]),
        "required" := JArray([JString(parameter)])])])
  }

  const ToolSpecs: seq<ToolSpec> := [
    ToolSpec("search_web", "Search the web with DuckDuckGo for information.",
      StringParameterSchema("query", "The query to search the web for.")),
    ToolSpec("retreive_url", "Retreive the content of a URL. Preferrably use with \"search_web\".",
      StringParameterSchema("url", "The URL to retreive content from. Do not make up any URLs.")),
    ToolSpec("snapshot_knowledge",
      "Snapshot new knowledge into the knowledge database only when necessary. Only include meaningful information.",
      StringParameterSchema("content", "The knowledge base content to snapshot.")),
    ToolSpec("search_knowledge_base", "Search the knowledge base database for similar content.",
      StringParameterSchema("question", "The question to search for."))
  ]

  const ToolMapping: map<string, Handler> := map[
    "search_web" := SearchWeb,
    "retreive_url" := RetreiveUrl,
    "snapshot_knowledge" := SnapshotKnowledge,
    "search_knowledge_base" := SearchKnowledgeBase
  ]

  /** The catalogue named by its handlers, in the order of `ToolSpecs`. */
  const Catalogue: seq<Handler> := [SearchWeb, RetreiveUrl, SnapshotKnowledge, SearchKnowledgeBase]

  /** Entry i of the catalogue is the spec named after handler i, and the
      handler table binds that name back to it. */
  lemma CatalogueFollowsSpecs()
    ensures |Catalogue| == |ToolSpecs|
    ensures forall i :: 0 <= i < |ToolSpecs| ==>
      && ToolSpecs[i].name == HandlerName(Catalogue[i])
      && ToolSpecs[i].name in ToolMapping && ToolMapping[ToolSpecs[i].name] == Catalogue[i]
  {
    assert ToolSpecs[0].name == "search_web";
    assert ToolSpecs[1].name == "retreive_url";
    assert ToolSpecs[2].name == "snapshot_knowledge";
    assert ToolSpecs[3].name == "search_knowledge_base";
  }

  /** The schema describes an object whose only property, and only required
      one, is the string `field`. */
  predicate DeclaresSingleStringField(schema: JsonValue, field: string) {
    schema.JObject? && "json" in schema.fields && StringObjectSchema(schema.fields["json"], field)
  }

  predicate StringObjectSchema(body: JsonValue, field: string) {
    && body.JObject?
    && "type" in body.fields && body.fields["type"] == JString("object")
    && "required" in body.fields && body.fields["required"] == JArray([JString(field)])
    && "properties" in body.fields && body.fields["properties"].JObject?
    && body.fields["properties"].fields.Keys == {field}
    && body.fields["properties"].fields[field].JObject?
    && "type" in body.fields["properties"].fields[field].fields
    && body.fields["properties"].fields[field].fields["type"] == JString("string")
  }

  /** The handler table and the catalogue hold the same names, no name
      twice, and each name is bound to the handler of that name. */
  lemma RegistryNamesAgree()
    ensures forall name :: name in ToolMapping <==> exists i :: 0 <= i < |ToolSpecs| && ToolSpecs[i].name == name
    ensures forall i, j :: 0 <= i < j < |ToolSpecs| ==> ToolSpecs[i].name != ToolSpecs[j].name
    ensures forall name :: name in ToolMapping ==> HandlerName(ToolMapping[name]) == name
  {
    assert ToolSpecs[0].name == "search_web";
    assert ToolSpecs[1].name == "retreive_url";
    assert ToolSpecs[2].name == "snapshot_knowledge";
    assert ToolSpecs[3].name == "search_knowledge_base";
  }

  /** Each schema asks for exactly the one string argument that the
      handler bound to its name takes. */
  lemma RegistrySchemasMatchHandlers()
    ensures forall i :: 0 <= i < |ToolSpecs| ==> ToolSpecs[i].name in ToolMapping
    ensures forall i :: 0 <= i < |ToolSpecs| ==>
      DeclaresSingleStringField(ToolSpecs[i].inputSchema, ParameterOf(ToolMapping[ToolSpecs[i].name]))
  {
    forall i | 0 <= i < |ToolSpecs|
      ensures ToolSpecs[i].name in ToolMapping
      ensures DeclaresSingleStringField(ToolSpecs[i].inputSchema, ParameterOf(ToolMapping[ToolSpecs[i].name]))
    {
      var spec := ToolSpecs[i];
      var h := ToolMapping[spec.name];
      SchemaDeclaresItsParameter(ParameterOf(h), if i == 0 then "The query to search the web for."
        else if i == 1 then "The URL to retreive content from. Do not make up any URLs."
        else if i == 2 then "The knowledge base content to snapshot."
        else "The question to search for.");
    }
  }

  lemma SchemaDeclaresItsParameter(parameter: string, description: string)
    ensures DeclaresSingleStringField(StringParameterSchema(parameter, description), parameter)
  {
  }

  /** Calling a handler with `**input`: a keyword-only function of one
      parameter accepts exactly that keyword and raises TypeError for an
      unexpected or a missing one. The value is passed through unchecked. */
  function BindArgument(h: Handler, input: map<string, JsonValue>): (r: Result<JsonValue>)
    ensures r.Success? <==> input.Keys == {ParameterOf(h)}
    ensures r.Success? ==> r.value == input[ParameterOf(h)]
  {
    if exists k :: k in input && k != ParameterOf(h) then
      Failure(HandlerName(h) + "() got an unexpected keyword argument")
    else if ParameterOf(h) !in input then
      Failure(HandlerName(h) + "() missing 1 required keyword-only argument: '" + ParameterOf(h) + "'")
    else
      Success(input[ParameterOf(h)])
  }

  // ---------------------------------------------------------------------
  // Handlers
  // ---------------------------------------------------------------------

  /** What a reader of a handler's `{'json': {...}}` result finds under
      `key`, if anything. */
  function Payload(block: ContentBlock, key: string): Option<JsonValue> {
    if block.Json? && block.json.JObject? && key in block.json.fields then Some(block.json.fields[key]) else None
  }

  /** `search_web`: the search engine's hits wrapped as `{'json': {'results': ...}}`. */
  function SearchWebResult(results: JsonValue): (block: ContentBlock)
    ensures Payload(block, "results") == Some(results)
    ensures forall key :: key != "results" ==> Payload(block, key) == None
  {
    Json(JObject(map["results" := results]))
  }

  function RowJson(row: Db.Row): JsonValue {
    JObject(map["id" := JString(row.id), "content" := JString(row.content)])
  }

  function RowsJson(rows: seq<Db.Row>): (items: seq<JsonValue>)
    ensures |items| == |rows|
    ensures forall i :: 0 <= i < |rows| ==> items[i] == RowJson(rows[i])
  {
    if rows == [] then [] else RowsJson(rows[..|rows| - 1]) + [RowJson(rows[|rows| - 1])]
  }

  /** The embedding service: text to vector, or the error it raised. */
  type Embedder = string -> Result<Db.Embedding>

  /** `snapshot_knowledge`: embed the content, store it, and report the id
      the store drew, as `{'json': {'knowledge_id': id}}`. */
  method SnapshotKnowledgeTool(store: Db.KnowledgeStore, content: string, embed: Embedder, newId: Db.Uuid, fault: Db.Fault)
    returns (r: Result<ContentBlock>)
    requires store.Valid()
    modifies store
    ensures store.Valid()
    ensures r.Success? <==>
      embed(content).Success? && old(store.free) > 0 && fault == Db.NoFault && !Db.HasId(old(store.table), newId)
    ensures embed(content).Failure? ==> r == Failure(embed(content).error) && unchanged(store)
    ensures store.free == old(store.free) - if embed(content).Success? then Db.Leaked(old(store.free), fault) else 0
    ensures r.Success? ==>
      && embed(content).Success?
      && r.value == Json(JObject(map["knowledge_id" := JString(newId)]))
      && store.table == old(store.table) + [Db.Record(newId, content, embed(content).value)]
    ensures r.Failure? ==> store.table == old(store.table)
  {
    var embedding := embed(content);
    if embedding.Failure? {
      return Failure(embedding.error);
    }
    var id := store.CreateRecord(newId, content, embedding.value, fault);
    if id.Failure? {
      return Failure(id.error);
    }
    r := Success(Json(JObject(map["knowledge_id" := JString(id.value)])));
  }

  /** `search_knowledge_base`: embed the question, fetch the nearest
      records (default limit), and return them unchanged as
      `{'json': {'records': [...]}}`. */
  method SearchKnowledgeBaseTool(store: Db.KnowledgeStore, question: string, embed: Embedder, dist: Db.Distance, fault: Db.Fault)
    returns (r: Result<ContentBlock>, ghost fetched: seq<nat>)
    requires store.Valid()
    modifies store`free
    ensures store.Valid() && store.table == old(store.table)
    ensures r.Success? <==> embed(question).Success? && old(store.free) > 0 && (fault.NoFault? || fault.CommitFails?)
    ensures embed(question).Failure? ==> r == Failure(embed(question).error)
    ensures store.free == old(store.free) - if embed(question).Success? then Db.Leaked(old(store.free), fault) else 0
    ensures r.Success? ==>
      && embed(question).Success?
      && Db.IsNearest(store.table, embed(question).value, Db.DefaultLimit, dist, fetched)
      && r.value == Json(JObject(map["records" := JArray(RowsJson(Db.Project(store.table, fetched)))]))
  {
    fetched := [];
    var embedding := embed(question);
    if embedding.Failure? {
      return Failure(embedding.error), fetched;
    }
    var rows;
    rows, fetched := store.GetRecordsByEmbedding(embedding.value, Db.DefaultLimit, dist, fault);
    if rows.Failure? {
      return Failure(rows.error), fetched;
    }
    r := Success(Json(JObject(map["records" := JArray(RowsJson(rows.value))])));
  }
}
