/**
 * The older single-document parsing endpoint (pages/api/parser.ts): an
 * optional API-key gate, the upload checks, and the clean-up of the model's
 * reply before it is parsed and returned as it is. The environment, the
 * model's reply and JSON.parse are parameters.
 */
module ParserHandler {
  import opened Results
  import opened Js
  import opened Text
  import opened Http

  /** The request as the handler reads it. */
  datatype Request = Request(verb: string, xApiKey: Value, authorization: Option<string>, upload: Option<Upload>)

  /** `process.env.API_KEY` and `process.env.ANTHROPIC_API_KEY`. */
  datatype Env = Env(apiKey: Option<string>, anthropicKey: Option<string>)

  datatype Reply = Reply(status: nat, body: Value)

  /** `process.env.X` is truthy. */
  predicate Set(v: Option<string>) {
    v.Some? && v.value != ""
  }

  /** `Array.isArray(raw) ? raw[0] : raw` */
  function HeaderKey(raw: Value): Value {
    if raw.Arr? then (if |raw.items| > 0 then raw.items[0] else Undefined) else raw
  }

  /** `auth && auth.startsWith('Bearer ') ? auth.slice(7) : undefined` */
  function Bearer(auth: Option<string>): (r: Value)
    ensures r != Undefined <==> auth.Some? && StartsWith(auth.value, "Bearer ")
    ensures r != Undefined ==> r.Str? && auth.value == "Bearer " + r.s
  {
    if auth.Some? && auth.value != "" && StartsWith(auth.value, "Bearer ") then
      assert auth.value == auth.value[..7] + auth.value[7..];
      Str(auth.value[7..])
    else Undefined
  }

  /** `headerKey || bearer`: the x-api-key header when it is truthy, the bearer token otherwise. */
  function ProvidedKey(req: Request): (r: Value)
    ensures Truthy(HeaderKey(req.xApiKey)) ==> r == HeaderKey(req.xApiKey)
    ensures !Truthy(HeaderKey(req.xApiKey)) ==> r == Bearer(req.authorization)
  {
    Or(HeaderKey(req.xApiKey), Bearer(req.authorization))
  }

  /** `provided !== requiredKey` is false: the gate lets the request through. */
  predicate Authorized(req: Request, env: Env) {
    !Set(env.apiKey) || ProvidedKey(req) == Str(env.apiKey.value)
  }

  /** Lines 105-107: fences removed, trimmed, then the first `{…}` span when there is one (objects only). */
  function CleanText(text: string): string {
    ExtractSpan(Trim(StripFences(text)), false)
  }

  /** The reply text: the first text block, '{}' when there is none. */
  function ReplyText(reply: Option<string>): string {
    if reply.Some? then reply.value else "{}"
  }

  /**
   * The handler: 405, then the key gate (401), the model key (500), the
   * upload (400), and the parse of the cleaned reply (500 with the parser's
   * message when it fails); the parsed value is returned as it is.
   */
  function Handle(req: Request, env: Env, reply: Option<string>, parse: string -> Result<Value>): (r: Reply)
    ensures req.verb != "POST" ==> r == Reply(405, ErrorBody("Method not allowed"))
    ensures req.verb == "POST" ==> (r.status == 401 <==> !Authorized(req, env))
    ensures r.status == 401 ==> r.body == ErrorBody("Unauthorized")
    ensures req.verb == "POST" && Authorized(req, env) && !Set(env.anthropicKey) ==>
      r == Reply(500, DetailedErrorBody("Server not configured", "Missing ANTHROPIC_API_KEY environment variable."))
    ensures req.verb == "POST" && Authorized(req, env) && Set(env.anthropicKey) && MissingFile(req.upload) ==>
      r == Reply(400, ErrorBody("Invalid file"))
    ensures req.verb == "POST" && Authorized(req, env) && Set(env.anthropicKey) && !MissingFile(req.upload) ==>
      var mimetype := req.upload.value.mimetype;
      if !StartsWith(mimetype, "image/") && mimetype != "application/pdf" then
        r == Reply(400, ErrorBody("Images and PDFs only"))
      else
        match parse(CleanText(ReplyText(reply)))
        case Ok(v) => r == Reply(200, v)
        case Err(m) => r == Reply(500, DetailedErrorBody("Processing failed", m))
    ensures r.status == 200 ==>
      req.upload.Some? && !MissingFile(req.upload) && Authorized(req, env) && Set(env.anthropicKey)
      && (StartsWith(req.upload.value.mimetype, "image/") || req.upload.value.mimetype == "application/pdf")
      && parse(CleanText(ReplyText(reply))) == Ok(r.body)
    ensures r.status == 500 && Set(env.anthropicKey) ==>
      parse(CleanText(ReplyText(reply))).Err?
      && r.body == DetailedErrorBody("Processing failed", parse(CleanText(ReplyText(reply))).message)
  {
    if req.verb != "POST" then Reply(405, ErrorBody("Method not allowed"))
    else if !Authorized(req, env) then Reply(401, ErrorBody("Unauthorized"))
    else if !Set(env.anthropicKey) then
      Reply(500, DetailedErrorBody("Server not configured", "Missing ANTHROPIC_API_KEY environment variable."))
    else if MissingFile(req.upload) then Reply(400, ErrorBody("Invalid file"))
    else
      var mimetype := req.upload.value.mimetype;
      if !StartsWith(mimetype, "image/") && mimetype != "application/pdf" then
        Reply(400, ErrorBody("Images and PDFs only"))
      else
        match parse(CleanText(ReplyText(reply)))
        case Err(msg) => Reply(500, DetailedErrorBody("Processing failed", msg))
        case Ok(v) => Reply(200, v)
  }

  /** With a key configured, the request passes exactly when the header or the bearer token equals it. */
  lemma GateIff(req: Request, env: Env)
    requires Set(env.apiKey)
    ensures Authorized(req, env) <==>
      HeaderKey(req.xApiKey) == Str(env.apiKey.value)
      || (!Truthy(HeaderKey(req.xApiKey)) && req.authorization == Some("Bearer " + env.apiKey.value))
  {
    var key := env.apiKey.value;
    if !Truthy(HeaderKey(req.xApiKey)) && req.authorization == Some("Bearer " + key) {
      assert StartsWith("Bearer " + key, "Bearer ");
      assert ("Bearer " + key)[7..] == key;
    }
  }

  /** A truthy x-api-key header wins: a correct bearer token does not rescue a wrong header. */
  lemma HeaderShadowsBearer(req: Request, env: Env)
    requires Set(env.apiKey) && Truthy(HeaderKey(req.xApiKey)) && HeaderKey(req.xApiKey) != Str(env.apiKey.value)
    requires req.authorization == Some("Bearer " + env.apiKey.value)
    ensures !Authorized(req, env)
  {
  }

  /** The scheme is matched case-sensitively: 'bearer ' is not a bearer token. */
  lemma LowercaseSchemeRejected(req: Request, env: Env, token: string)
    requires Set(env.apiKey) && !Truthy(HeaderKey(req.xApiKey))
    requires req.authorization == Some("bearer " + token)
    ensures !Authorized(req, env)
  {
    assert ("bearer " + token)[0] == 'b';
  }

  /** Without a configured key nothing is checked. */
  lemma NoKeyNoGate(req: Request, env: Env)
    requires !Set(env.apiKey)
    ensures Authorized(req, env)
  {
  }

  /**
   * Only objects are cut out: a reply that is an array of objects loses its
   * brackets here, where the extraction endpoint keeps them.
   */
  lemma ArrayReplyUnwrapped()
    ensures CleanText("[{}]") == "{}"
    ensures ExtractSpan("[{}]", true) == "[{}]"
  {
    var s := "[{}]";
    assert StripFences(s) == s by {
      StripFencesPlain(s);
    }
    assert Trim(s) == s by {
      TrimOfUnpadded(s);
    }
    assert ExtractSpan(s, false) == "{}" by {
      ObjectInsideArray();
    }
    assert ExtractSpan(s, true) == s by {
      SpanOfBracketed(s, true);
    }
  }

  lemma ObjectInsideArray()
    ensures ExtractSpan("[{}]", false) == "{}"
  {
    var s := "[{}]";
    assert !OpensSpan(s, 0, false);
    assert s[2] == '}';
    assert OpensSpan(s, 1, false);
    assert FirstOpen(s, 0, false) == Some(1);
    var q := SpanEnd(s, 1, false);
    assert s[3] != '}';
    assert q == 2;
    assert s[1..3] == "{}";
  }
}
