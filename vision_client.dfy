/**
 * The client for the hosted vision model (lib/azureAiClient.ts): configuration from the
 * environment, the image reference sent with a prompt, the chat-completions request, and
 * the extraction of a JSON answer from the completion payload.
 */
module VisionClient {
  import opened Common
  import opened Js
  import opened Base64

  const DefaultModel: string := "gpt-5-nano"
  const DefaultApiVersion: string := "2024-12-01-preview"

  // ---------------------------------------------------------------- configuration

  /** The four environment variables the client reads; None when unset. */
  datatype Env = Env(
    apiKey: Option<string>,       // CONF_AZURE_API_KEY
    deployment: Option<string>,   // CONF_AZURE_DEPLOYMENT
    apiVersion: Option<string>,   // CONF_API_VERSION
    endpoint: Option<string>)     // CONF_AZURE_ENDPOINT

  datatype Config = Config(endpoint: string, apiKey: string, deployment: string, apiVersion: string)

  /** `process.env.X?.trim() || ""`. */
  function Setting(v: Option<string>): (r: string)
    ensures IsTrimmed(r)
    ensures v.None? ==> r == ""
  {
    match v
    case None => ""
    case Some(s) => TrimIsTrimmed(s); Trim(s)
  }

  /** `s || fallback`. */
  function OrDefault(s: string, fallback: string): string {
    if s == [] then fallback else s
  }

  /** `s.replace(/\/?$/, "")`: drops one trailing slash, if there is one. */
  function StripTrailingSlash(s: string): (r: string)
    ensures r + "/" == s || (r == s && (s == [] || s[|s| - 1] != '/'))
  {
    if s != [] && s[|s| - 1] == '/' then s[..|s| - 1] else s
  }

  function ChatCompletionsPath(deployment: string, apiVersion: string): string {
    "/openai/deployments/" + deployment + "/chat/completions?api-version=" + apiVersion
  }

  /**
   * getAzureAiConfig: fails exactly when the trimmed key or the trimmed endpoint is
   * empty; the deployment and the API version fall back to their defaults.
   */
  function GetAzureAiConfig(env: Env): (r: Result<Config>)
    ensures r.Err? <==> Setting(env.apiKey) == "" || Setting(env.endpoint) == ""
    ensures r.Err? ==> r.error == ConfigMissing
    ensures r.Ok? ==>
      && r.value.apiKey == Setting(env.apiKey) && r.value.apiKey != ""
      && r.value.deployment == OrDefault(Setting(env.deployment), DefaultModel)
      && r.value.apiVersion == OrDefault(Setting(env.apiVersion), DefaultApiVersion)
      && r.value.deployment != "" && r.value.apiVersion != ""
    ensures r.Ok? ==>
      r.value.endpoint == StripTrailingSlash(Setting(env.endpoint)) + ChatCompletionsPath(r.value.deployment, r.value.apiVersion)
  {
    var apiKey := Setting(env.apiKey);
    var deployment := OrDefault(Setting(env.deployment), DefaultModel);
    var apiVersion := OrDefault(Setting(env.apiVersion), DefaultApiVersion);
    var base := Setting(env.endpoint);
    if apiKey == [] || deployment == [] || base == [] then Err(ConfigMissing)
    else
      var head := StripTrailingSlash(base);
      Ok(Config(head + ChatCompletionsPath(deployment, apiVersion), apiKey, deployment, apiVersion))
  }

  /** An endpoint given with or without its trailing slash configures the same URL. */
  lemma TrailingSlashIrrelevant(env: Env, base: string)
    requires IsTrimmed(base) && base != [] && base[|base| - 1] != '/'
    ensures var a := GetAzureAiConfig(env.(endpoint := Some(base)));
            var b := GetAzureAiConfig(env.(endpoint := Some(base + "/")));
            a.Ok? <==> b.Ok?
    ensures var a := GetAzureAiConfig(env.(endpoint := Some(base)));
            var b := GetAzureAiConfig(env.(endpoint := Some(base + "/")));
            a.Ok? ==> a == b
  {
    TrimOfTrimmed(base);
    var s := base + "/";
    assert IsTrimmed(s);
    TrimOfTrimmed(s);
    assert s[..|s| - 1] == base;
  }

  // ---------------------------------------------------------------- requests

  datatype Request = Request(url: string, headers: seq<(string, string)>, body: JsValue)
  datatype Reply = Reply(status: int, text: string)

  /** buildHeaders. */
  function BuildHeaders(apiKey: string): (h: seq<(string, string)>)
    ensures ("api-key", apiKey) in h && ("Content-Type", "application/json") in h
  {
    [("Content-Type", "application/json"), ("api-key", apiKey)]
  }

  predicate IsOk(status: int) {
    200 <= status <= 299
  }

  /** What a JSON body parses to, with JSON.parse given as `parse`. */
  function ParseBody(text: string, parse: string -> Option<JsValue>): Result<JsValue> {
    match parse(text)
    case None => Err(SyntaxError)
    case Some(v) => Ok(v)
  }

  /**
   * postAzureChatCompletion: the configuration is read before anything is sent; the
   * request goes to the configured endpoint with the key header; a non-2xx answer
   * becomes an error carrying the status and the body text. `send` is the network.
   */
  function PostAzureChatCompletion(env: Env, body: JsValue, send: Request -> Result<Reply>,
                                   parse: string -> Option<JsValue>): (r: Result<JsValue>)
    ensures GetAzureAiConfig(env).Err? ==> r == Err(ConfigMissing)
    ensures GetAzureAiConfig(env).Ok? ==>
      var cfg := GetAzureAiConfig(env).value;
      var req := Request(cfg.endpoint, BuildHeaders(cfg.apiKey), body);
      match send(req)
      case Err(e) => r == Err(e)
      case Ok(reply) =>
        (!IsOk(reply.status) ==> r == Err(UpstreamStatus(reply.status, reply.text)))
        && (IsOk(reply.status) ==> r == ParseBody(reply.text, parse))
  {
    var cfg :- GetAzureAiConfig(env);
    var reply :- send(Request(cfg.endpoint, BuildHeaders(cfg.apiKey), body));
    if !IsOk(reply.status) then Err(UpstreamStatus(reply.status, reply.text))
    else ParseBody(reply.text, parse)
  }

  /** Without a configuration the network is never consulted: the outcome is the same for any network. */
  lemma ConfigCheckedBeforeRequest(env: Env, body: JsValue, send1: Request -> Result<Reply>,
                                   send2: Request -> Result<Reply>, parse: string -> Option<JsValue>)
    requires GetAzureAiConfig(env).Err?
    ensures PostAzureChatCompletion(env, body, send1, parse) == PostAzureChatCompletion(env, body, send2, parse)
    ensures PostAzureChatCompletion(env, body, send1, parse).Err?
  {
  }

  // ---------------------------------------------------------------- image reference

  /** An uploaded file: its declared MIME type ("" when none) and its bytes. */
  datatype File = File(mimeType: string, bytes: seq<byte>)

  /** `{ imageUrl?, imageFile? }`; None stands for null or absent. */
  datatype ImageSource = ImageSource(imageUrl: Option<string>, imageFile: Option<File>)

  predicate HasUrl(source: ImageSource) {
    source.imageUrl.Some? && source.imageUrl.value != ""
  }

  function DataUrlPrefix(mime: string): string {
    "data:" + mime + ";base64,"
  }

  /** The file's MIME type, or image/jpeg when it has none. */
  function FileMime(f: File): (m: string)
    ensures m != ""
    ensures f.mimeType != "" ==> m == f.mimeType
    ensures f.mimeType == "" ==> m == "image/jpeg"
  {
    if f.mimeType == "" then "image/jpeg" else f.mimeType
  }

  /**
   * resolveImageReference: a non-empty URL is used as is; otherwise a file becomes a
   * base64 data URL whose payload decodes back to the file's bytes; otherwise it fails.
   */
  function ResolveImageReference(source: ImageSource): (r: Result<string>)
    ensures r.Err? <==> !HasUrl(source) && source.imageFile.None?
    ensures r.Err? ==> r.error == ImageRequired
    ensures HasUrl(source) ==> r == Ok(source.imageUrl.value)
    ensures !HasUrl(source) && source.imageFile.Some? ==>
      var f := source.imageFile.value;
      var prefix := DataUrlPrefix(FileMime(f));
      r.Ok? && |prefix| <= |r.value| && r.value[..|prefix|] == prefix
      && Decode(r.value[|prefix|..]) == Some(f.bytes)
  {
    if HasUrl(source) then Ok(source.imageUrl.value)
    else if source.imageFile.Some? then
      var f := source.imageFile.value;
      var prefix := DataUrlPrefix(FileMime(f));
      var url := prefix + Encode(f.bytes);
      DecodeEncode(f.bytes);
      assert url[|prefix|..] == Encode(f.bytes);
      Ok(url)
    else Err(ImageRequired)
  }

  // ---------------------------------------------------------------- reply extraction

  /** `chunk?.type === "text"`. */
  predicate IsTextChunk(chunk: JsValue) {
    OptGet(chunk, "type") == JStr("text")
  }

  /**
   * The position `chunks.find(isTextChunk)` stops at: the first text chunk, or the
   * length of the list when there is none.
   */
  function FirstTextChunkIndex(chunks: seq<JsValue>): (i: nat)
    ensures i <= |chunks|
    ensures forall j :: 0 <= j < i ==> !IsTextChunk(chunks[j])
    ensures i < |chunks| ==> IsTextChunk(chunks[i])
  {
    if chunks == [] || IsTextChunk(chunks[0]) then 0
    else 1 + FirstTextChunkIndex(chunks[1..])
  }

  /** The text a text chunk carries: a string, or an array of pieces joined with "". */
  function ChunkText(chunk: JsValue): Option<string> {
    var t := Get(chunk, "text");
    if t.JStr? then Some(t.s)
    else if t.JArr? then Some(JoinElements(t, 0, ""))
    else None
  }

  /**
   * extractMessageText: a string content is the text; for an array content only the
   * first chunk typed "text" is consulted; anything else has no text.
   */
  function ExtractMessageText(message: JsValue): (r: Option<string>)
    ensures !Truthy(message) ==> r.None?
    ensures Truthy(message) && Get(message, "content").JStr? ==> r == Some(Get(message, "content").s)
    ensures Truthy(message) && !Get(message, "content").JStr? && !Get(message, "content").JArr? ==> r.None?
    ensures Truthy(message) && Get(message, "content").JArr?
            && (forall i :: 0 <= i < |Get(message, "content").items| ==> !IsTextChunk(Get(message, "content").items[i]))
            ==> r.None?
  {
    if !Truthy(message) then None
    else
      var content := Get(message, "content");
      match content
      case JStr(s) => Some(s)
      case JArr(chunks) =>
        var i := FirstTextChunkIndex(chunks);
        if i == |chunks| then None else ChunkText(chunks[i])
      case _ => None
  }

  /** Chunks after the first text chunk, text-typed or not, never change the extracted text. */
  lemma OnlyFirstTextChunkCounts(pre: seq<JsValue>, chunk: JsValue, post: seq<JsValue>)
    requires forall i :: 0 <= i < |pre| ==> !IsTextChunk(pre[i])
    requires IsTextChunk(chunk)
    ensures ExtractMessageText(JObj(map["content" := JArr(pre + [chunk] + post)])) == ChunkText(chunk)
  {
    var all := pre + [chunk] + post;
    var i := FirstTextChunkIndex(all);
    assert all[|pre|] == chunk;
    assert forall j :: 0 <= j < |pre| ==> all[j] == pre[j];
  }

  /** `v?.[0]` for a non-nullish value. */
  function Index0(v: JsValue): JsValue {
    match v
    case JArr(items) => if items == [] then JUndefined else items[0]
    case JObj(props) => if "0" in props then props["0"] else JUndefined
    case JStr(s) => if s == [] then JUndefined else JStr([s[0]])
    case _ => JUndefined
  }

  /** `payload.choices?.[0]?.message` for a truthy payload. */
  function FirstMessage(payload: JsValue): JsValue {
    var choices := Get(payload, "choices");
    OptGet(if IsNullish(choices) then JUndefined else Index0(choices), "message")
  }

  /** The non-empty text of the first choice's message, when there is one. */
  function ReplyText(payload: JsValue): (r: Option<string>)
    ensures r.Some? ==> r.value != ""
  {
    var message := FirstMessage(payload);
    if !Truthy(message) then None
    else
      match ExtractMessageText(message)
      case Some(t) => if t == "" then None else Some(t)
      case None => None
  }

  /**
   * extractJsonFromResponses: an empty reply fails; a payload without a message text is
   * returned unchanged; otherwise the text is parsed as JSON, and a parse failure fails.
   */
  function ExtractJsonFromResponses(payload: JsValue, parse: string -> Option<JsValue>): (r: Result<JsValue>)
    ensures r == Err(EmptyReply) <==> !Truthy(payload)
    ensures r.Err? ==> r.error == EmptyReply || r.error == SyntaxError
    ensures Truthy(payload) && ReplyText(payload).None? ==> r == Ok(payload)
    ensures Truthy(payload) && ReplyText(payload).Some? ==> r == ParseBody(ReplyText(payload).value, parse)
  {
    if !Truthy(payload) then Err(EmptyReply)
    else
      match ReplyText(payload)
      case None => Ok(payload)
      case Some(text) => ParseBody(text, parse)
  }

  /** The usual reply shape: a first choice whose message content is a JSON string. */
  lemma ExtractFromStringContent(text: string, rest: seq<JsValue>, parse: string -> Option<JsValue>)
    requires text != ""
    ensures var payload := JObj(map["choices" := JArr([JObj(map["message" := JObj(map["content" := JStr(text)])])] + rest)]);
            ExtractJsonFromResponses(payload, parse) == ParseBody(text, parse)
  {
  }

  /** A payload that already is the answer (no `choices`) comes back untouched. */
  lemma ExtractWithoutChoices(props: map<string, JsValue>, parse: string -> Option<JsValue>)
    requires "choices" !in props
    ensures ExtractJsonFromResponses(JObj(props), parse) == Ok(JObj(props))
  {
  }
}
