/**
 * The virtual try-on route (app/api/tryon/route.ts): two views generated one after the
 * other from the avatar and product images, each with up to three attempts, a 25 s wait
 * after a rate-limit answer, and an 8 s pause between views. The image model's stream is
 * an input per view and attempt; sleeps are recorded as a list of delays in ms.
 */
module TryOn {
  import opened Common
  import opened Js
  import opened Base64
  import opened AvatarStorage
  import opened AvatarRoute

  // ---------------------------------------------------------------- the stream scan

  /** A part of a streamed chunk; only inline image data matters here. */
  datatype Part = Part(data: Option<string>, mimeType: Option<string>)

  /** A streamed chunk: the parts of its first candidate, None when the chunk has none. */
  datatype Chunk = Chunk(parts: Option<seq<Part>>)

  /** A view to generate: its id and label (its prompt is not modelled). */
  datatype ViewSpec = ViewSpec(id: string, viewLabel: string)

  datatype GeneratedView = GeneratedView(id: string, viewLabel: string, url: string)

  /** `inlineData?.data && inlineData?.mimeType`: both present and non-empty. */
  predicate Usable(p: Part) {
    p.data.Some? && p.data.value != "" && p.mimeType.Some? && p.mimeType.value != ""
  }

  /** The first usable part of `parts` from index j on. */
  function FirstUsable(parts: seq<Part>, j: nat): (r: Option<Part>)
    ensures r.Some? ==> Usable(r.value)
    decreases |parts| - j
  {
    if j >= |parts| then None
    else if Usable(parts[j]) then Some(parts[j])
    else FirstUsable(parts, j + 1)
  }

  /** The first usable part of the stream from chunk i on, chunks without parts skipped. */
  function ScanFrom(chunks: seq<Chunk>, i: nat): (r: Option<Part>)
    ensures r.Some? ==> Usable(r.value)
    decreases |chunks| - i
  {
    if i >= |chunks| then None
    else
      var found := if chunks[i].parts.Some? then FirstUsable(chunks[i].parts.value, 0) else None;
      if found.Some? then found else ScanFrom(chunks, i + 1)
  }

  /** The view a usable part gives: `data:{mime};base64,{data}` with the view's id and label. */
  function ViewOf(view: ViewSpec, found: Option<Part>): (r: Option<GeneratedView>)
    requires found.Some? ==> Usable(found.value)
    ensures r.Some? <==> found.Some?
    ensures r.Some? ==> r.value.id == view.id && r.value.viewLabel == view.viewLabel
    ensures r.Some? ==> r.value.url == "data:" + found.value.mimeType.value + ";base64," + found.value.data.value
  {
    if found.None? then None
    else Some(GeneratedView(view.id, view.viewLabel, "data:" + found.value.mimeType.value + ";base64," + found.value.data.value))
  }

  /** generateSingleView's scan: it returns at the first usable part of the stream, else null. */
  method GenerateSingleView(view: ViewSpec, chunks: seq<Chunk>) returns (r: Option<GeneratedView>)
    ensures r == ViewOf(view, ScanFrom(chunks, 0))
  {
    var i := 0;
    while i < |chunks|
      invariant 0 <= i <= |chunks|
      invariant ScanFrom(chunks, 0) == ScanFrom(chunks, i)
    {
      if chunks[i].parts.Some? {
        var parts := chunks[i].parts.value;
        var j := 0;
        while j < |parts|
          invariant 0 <= j <= |parts|
          invariant FirstUsable(parts, 0) == FirstUsable(parts, j)
        {
          if Usable(parts[j]) {
            return Some(GeneratedView(view.id, view.viewLabel, "data:" + parts[j].mimeType.value + ";base64," + parts[j].data.value));
          }
          j := j + 1;
        }
      }
      i := i + 1;
    }
    return None;
  }

  /** A stream yields an image exactly when one of its chunks carries a usable part. */
  lemma {:induction false} ScanFindsUsablePart(chunks: seq<Chunk>, i: nat)
    ensures ScanFrom(chunks, i).Some? <==>
      exists c, k :: i <= c < |chunks| && chunks[c].parts.Some? && 0 <= k < |chunks[c].parts.value|
                     && Usable(chunks[c].parts.value[k])
    decreases |chunks| - i
  {
    if i < |chunks| {
      ScanFindsUsablePart(chunks, i + 1);
      if chunks[i].parts.Some? {
        var parts := chunks[i].parts.value;
        FirstUsableFinds(parts, 0);
        if FirstUsable(parts, 0).Some? {
          var k :| 0 <= k < |parts| && Usable(parts[k]);
          assert i <= i < |chunks| && chunks[i].parts.Some? && Usable(chunks[i].parts.value[k]);
        }
      }
    }
  }

  lemma {:induction false} FirstUsableFinds(parts: seq<Part>, j: nat)
    ensures FirstUsable(parts, j).Some? <==> exists k :: j <= k < |parts| && Usable(parts[k])
    decreases |parts| - j
  {
    if j < |parts| {
      FirstUsableFinds(parts, j + 1);
    }
  }

  // ---------------------------------------------------------------- attempts of one view

  /** What one attempt does: the model streams its answer, or the call throws, with the error's HTTP status if any. */
  datatype Attempt = Streamed(chunks: seq<Chunk>) | Threw(status: Option<int>)

  /** The view (or null), the waits taken and the attempts made. */
  datatype ViewRun = ViewRun(result: Option<GeneratedView>, delays: seq<nat>, attempts: nat)

  const MaxAttempts: nat := 3
  const RateLimitWait: nat := 25000
  const ViewPause: nat := 8000

  /** `run` preceded by `attempts` earlier attempts that waited `delays`. */
  function Then(delays: seq<nat>, attempts: nat, run: ViewRun): ViewRun {
    ViewRun(run.result, delays + run.delays, attempts + run.attempts)
  }

  /**
   * The retry loop of one view from attempt k on: an image ends it; a stream without one
   * is retried at once; a 429 before the last attempt waits 25 s and retries; any other
   * error, or a 429 on the last attempt, ends it with no view.
   */
  function AttemptFrom(view: ViewSpec, outcome: nat -> Attempt, k: nat): ViewRun
    requires k >= 1
    decreases MaxAttempts + 1 - k
  {
    if k > MaxAttempts then ViewRun(None, [], 0)
    else
      match outcome(k)
      case Streamed(chunks) =>
        var v := ViewOf(view, ScanFrom(chunks, 0));
        if v.Some? then ViewRun(v, [], 1) else Then([], 1, AttemptFrom(view, outcome, k + 1))
      case Threw(status) =>
        if status == Some(429) && k < MaxAttempts then Then([RateLimitWait], 1, AttemptFrom(view, outcome, k + 1))
        else ViewRun(None, [], 1)
  }

  /** The `while (attempts < maxAttempts && !result)` loop, proved to follow AttemptFrom. */
  method GenerateView(view: ViewSpec, outcome: nat -> Attempt) returns (run: ViewRun)
    ensures run == AttemptFrom(view, outcome, 1)
  {
    var result: Option<GeneratedView> := None;
    var attempts := 0;
    var delays: seq<nat> := [];
    ghost var total := AttemptFrom(view, outcome, 1);
    assert total == Then([], 0, total);
    while attempts < MaxAttempts && result.None?
      invariant 0 <= attempts <= MaxAttempts
      invariant result.Some? ==> total == ViewRun(result, delays, attempts)
      invariant result.None? ==> total == Then(delays, attempts, AttemptFrom(view, outcome, attempts + 1))
    {
      attempts := attempts + 1;
      ghost var rest := AttemptFrom(view, outcome, attempts + 1);
      var o := outcome(attempts);
      if o.Streamed? {
        result := GenerateSingleView(view, o.chunks);
        if result.None? {
          ThenThen(delays, [], attempts - 1, rest);
          assert delays + [] == delays;
        } else {
          assert delays + [] == delays;
        }
      } else if o.status == Some(429) && attempts < MaxAttempts {
        ThenThen(delays, [RateLimitWait], attempts - 1, rest);
        delays := delays + [RateLimitWait];
      } else {
        assert delays + [] == delays;
        break;
      }
    }
    run := ViewRun(result, delays, attempts);
  }

  lemma ThenThen(d: seq<nat>, e: seq<nat>, a: nat, run: ViewRun)
    ensures Then(d, a, Then(e, 1, run)) == Then(d + e, a + 1, run)
  {
    assert d + (e + run.delays) == (d + e) + run.delays;
  }

  /**
   * A view takes at most three attempts, at least one; every wait is a 25 s rate-limit
   * wait, one fewer than the attempts at most; and a view, when there is one, carries
   * the view's id and label and a data URL.
   */
  lemma {:induction false} AttemptBounds(view: ViewSpec, outcome: nat -> Attempt, k: nat)
    requires 1 <= k <= MaxAttempts
    ensures var run := AttemptFrom(view, outcome, k);
      && 1 <= run.attempts <= MaxAttempts + 1 - k
      && |run.delays| <= run.attempts - 1
      && (forall j :: 0 <= j < |run.delays| ==> run.delays[j] == RateLimitWait)
      && (run.result.Some? ==> run.result.value.id == view.id && run.result.value.viewLabel == view.viewLabel
                               && StartsWith(run.result.value.url, "data:"))
    decreases MaxAttempts + 1 - k
  {
    if k < MaxAttempts {
      AttemptBounds(view, outcome, k + 1);
    }
    var run := AttemptFrom(view, outcome, k);
    if run.result.Some? {
      assert run.result.value.url[..5] == "data:";
    }
  }

  /** A 429 on attempt 1 or 2 waits 25 s and tries again. */
  lemma RateLimitWaitsAndRetries(view: ViewSpec, outcome: nat -> Attempt, k: nat)
    requires 1 <= k < MaxAttempts && outcome(k) == Threw(Some(429))
    ensures AttemptFrom(view, outcome, k) == Then([RateLimitWait], 1, AttemptFrom(view, outcome, k + 1))
  {
  }

  /** Any other error, or a 429 on the last attempt, ends the view with no wait and no view. */
  lemma OtherErrorStops(view: ViewSpec, outcome: nat -> Attempt, k: nat, status: Option<int>)
    requires 1 <= k <= MaxAttempts && outcome(k) == Threw(status)
    requires status != Some(429) || k == MaxAttempts
    ensures AttemptFrom(view, outcome, k) == ViewRun(None, [], 1)
  {
  }

  /** A stream without an image is retried at once, with no wait. */
  lemma NoImageRetriesAtOnce(view: ViewSpec, outcome: nat -> Attempt, k: nat)
    requires 1 <= k <= MaxAttempts && outcome(k).Streamed? && ScanFrom(outcome(k).chunks, 0).None?
    ensures AttemptFrom(view, outcome, k) == Then([], 1, AttemptFrom(view, outcome, k + 1))
  {
  }

  // ---------------------------------------------------------------- both views

  /** The two views, in generation order. */
  const Views: seq<ViewSpec> := [ViewSpec("front", "Frontal"), ViewSpec("side", "Lateral")]

  /** Generated views and every wait, in order. */
  datatype Generation = Generation(results: seq<GeneratedView>, delays: seq<nat>)

  /**
   * generateTryOnWithGemini over the first n views: each view's run is appended when it
   * produced a view, its waits are kept, and an 8 s pause follows every view but the last.
   * `outcome(i)` is what the attempts of view i do.
   */
  function GenerateFrom(views: seq<ViewSpec>, outcome: nat -> nat -> Attempt, n: nat): Generation
    requires n <= |views|
  {
    if n == 0 then Generation([], [])
    else
      var prev := GenerateFrom(views, outcome, n - 1);
      var run := AttemptFrom(views[n - 1], outcome(n - 1), 1);
      Generation(prev.results + (if run.result.Some? then [run.result.value] else []),
                 prev.delays + run.delays + (if n - 1 < |views| - 1 then [ViewPause] else []))
  }

  /** The loop over the views, proved to follow GenerateFrom. */
  method GenerateTryOn(outcome: nat -> nat -> Attempt) returns (g: Generation)
    ensures g == GenerateFrom(Views, outcome, |Views|)
  {
    var results: seq<GeneratedView> := [];
    var delays: seq<nat> := [];
    var i := 0;
    while i < |Views|
      invariant 0 <= i <= |Views|
      invariant Generation(results, delays) == GenerateFrom(Views, outcome, i)
    {
      var run := GenerateView(Views[i], outcome(i));
      if run.result.Some? {
        results := results + [run.result.value];
      }
      delays := delays + run.delays;
      if i < |Views| - 1 {
        delays := delays + [ViewPause];
      }
      i := i + 1;
    }
    g := Generation(results, delays);
  }

  /**
   * Results follow view order, each view at most once; the waits are the front view's,
   * one 8 s pause, then the side view's, and nothing after the last view.
   */
  lemma TwoViews(outcome: nat -> nat -> Attempt)
    ensures var g := GenerateFrom(Views, outcome, 2);
      var front := AttemptFrom(Views[0], outcome(0), 1);
      var side := AttemptFrom(Views[1], outcome(1), 1);
      && |g.results| <= 2
      && (forall j :: 0 <= j < |g.results| ==> g.results[j].id == "front" || g.results[j].id == "side")
      && (|g.results| == 2 ==> g.results[0].id == "front" && g.results[1].id == "side")
      && (|g.results| == 1 ==> (g.results[0].id == "front" <==> front.result.Some?))
      && g.delays == front.delays + [ViewPause] + side.delays
      && (forall j :: 0 <= j < |g.delays| ==> g.delays[j] == RateLimitWait || g.delays[j] == ViewPause)
      && multiset(g.delays)[ViewPause] == 1
  {
    AttemptBounds(Views[0], outcome(0), 1);
    AttemptBounds(Views[1], outcome(1), 1);
    var g := GenerateFrom(Views, outcome, 2);
    var front := AttemptFrom(Views[0], outcome(0), 1);
    var side := AttemptFrom(Views[1], outcome(1), 1);
    assert GenerateFrom(Views, outcome, 1).delays == front.delays + [ViewPause];
    assert g.delays == front.delays + [ViewPause] + side.delays;
    assert multiset(front.delays)[ViewPause] == 0 by {
      assert ViewPause !in front.delays;
    }
    assert multiset(side.delays)[ViewPause] == 0 by {
      assert ViewPause !in side.delays;
    }
  }

  // ---------------------------------------------------------------- the route

  /** `contentType.split(";")[0]`: the text before the first ';'. */
  function BeforeSemicolon(s: string): (r: string)
    ensures |r| <= |s| && r == s[..|r|]
    ensures forall t :: 0 <= t < |r| ==> r[t] != ';'
    ensures |r| < |s| ==> s[|r|] == ';'
  {
    if s == [] || s[0] == ';' then "" else [s[0]] + BeforeSemicolon(s[1..])
  }

  const DefaultMime: string := "image/jpeg"

  /** fetchImageAsBase64's mime type: the Content-Type before any ';', trimmed, image/jpeg when absent or empty. */
  function MimeOf(contentType: Option<string>): string {
    var header := if contentType.Some? && contentType.value != "" then contentType.value else DefaultMime;
    Trim(BeforeSemicolon(header))
  }

  /** The mime type is trimmed and holds no ';'. */
  lemma MimeOfShape(contentType: Option<string>)
    ensures IsTrimmed(MimeOf(contentType))
    ensures forall t :: 0 <= t < |MimeOf(contentType)| ==> MimeOf(contentType)[t] != ';'
  {
    var header := if contentType.Some? && contentType.value != "" then contentType.value else DefaultMime;
    TrimIsTrimmed(BeforeSemicolon(header));
    TrimKeepsOut(BeforeSemicolon(header), ';');
  }

  /** Trimming adds no character. */
  lemma TrimKeepsOut(s: string, c: char)
    requires forall t :: 0 <= t < |s| ==> s[t] != c
    ensures forall t :: 0 <= t < |Trim(s)| ==> Trim(s)[t] != c
  {
    var a := TrimStart(s);
    assert forall t :: 0 <= t < |a| ==> a[t] == s[|s| - |a| + t];
    var r := TrimEnd(a);
    assert forall t :: 0 <= t < |r| ==> r[t] == a[t];
  }

  /** A media type followed by parameters gives back the media type. */
  lemma MimeOfMediaType(media: string, parameters: string)
    requires media != [] && IsTrimmed(media) && forall t :: 0 <= t < |media| ==> media[t] != ';'
    requires parameters == [] || parameters[0] == ';'
    ensures MimeOf(Some(media + parameters)) == media
  {
    var h := media + parameters;
    BeforeSemicolonAt(h, |media|);
    assert h[..|media|] == media;
    TrimOfTrimmed(media);
  }

  /** No Content-Type, or an empty one, gives image/jpeg. */
  lemma MimeOfMissingHeader()
    ensures MimeOf(None) == DefaultMime && MimeOf(Some("")) == DefaultMime
  {
    MimeOfMediaType(DefaultMime, "");
    assert DefaultMime + "" == DefaultMime;
  }

  /** When the first ';' is at k (or there is none and k is the length), the prefix is s[..k]. */
  lemma {:induction false} BeforeSemicolonAt(s: string, k: nat)
    requires k <= |s| && (forall t :: 0 <= t < k ==> s[t] != ';') && (k < |s| ==> s[k] == ';')
    ensures BeforeSemicolon(s) == s[..k]
  {
    if k > 0 {
      BeforeSemicolonAt(s[1..], k - 1);
      assert s[..k] == [s[0]] + s[1..][..k - 1];
    }
  }

  /** A relative image path is fetched from NEXT_PUBLIC_BASE_URL (or "" when unset). */
  function ImageUrl(imageUrl: string, baseUrl: Option<string>): (r: string)
    ensures StartsWith(imageUrl, "http") ==> r == imageUrl
    ensures !StartsWith(imageUrl, "http") ==> r == baseUrl.GetOr("") + imageUrl
  {
    if StartsWith(imageUrl, "http") then imageUrl else baseUrl.GetOr("") + imageUrl
  }

  /** What fetching an image gives: an answer with status, Content-Type and body, or a rejection with its message. */
  datatype ImageFetch = Fetched(status: int, contentType: Option<string>, body: seq<byte>) | FetchRejected(message: string)

  /** An image ready for the model: its base64 text and mime type. */
  datatype InlineImage = InlineImage(base64: string, mimeType: string)

  /** fetchImageAsBase64: a non-2xx answer throws "Failed to fetch image from {url}: {status}". */
  function FetchImageAsBase64(url: string, answer: ImageFetch): (r: Result<InlineImage>)
    ensures r.Ok? <==> answer.Fetched? && 200 <= answer.status <= 299
    ensures r.Ok? ==> r.value.base64 == Encode(answer.body) && r.value.mimeType == MimeOf(answer.contentType)
  {
    match answer
    case FetchRejected(m) => Err(UpstreamStatus(0, m))
    case Fetched(status, contentType, body) =>
      if !(200 <= status <= 299) then Err(UpstreamStatus(status, "Failed to fetch image from " + url + ": " + IntToString(status)))
      else Ok(InlineImage(Encode(body), MimeOf(contentType)))
  }

  /** The body of the error a failed image fetch throws. */
  function FaultMessage(f: Fault): string {
    if f.UpstreamStatus? then f.body else "Error desconocido"
  }

  /** The product row: its image and name. */
  datatype ProductRow = ProductRow(imagenProducto: Option<string>, nombre: Option<string>)

  /** The request body: parsed JSON, or a parse failure with its message. */
  datatype Body = Parsed(value: JsValue) | Unparsable(message: string)

  datatype TryOnReply = Generated(views: seq<GeneratedView>, message: string) | Failure(status: int, error: string)

  const NotSignedIn: string := "No autorizado. Inicia sesión para usar el probador virtual."
  const NotConfigured: string := "Servicio de IA no configurado correctamente."
  const ProductRequired: string := "Se requiere el ID del producto."
  const NoAvatar: string := "No tienes un avatar guardado. Por favor, crea tu avatar virtual primero."
  const NoProductImage: string := "El producto no tiene imagen disponible."
  const NothingGenerated: string := "No se pudieron generar las imágenes. Intenta nuevamente."
  const ErrorPrefix: string := "Error al generar el probador virtual: "
  /** The engine's TypeError text for destructuring a null body (approximated). */
  const NullBodyMessage: string := "Cannot destructure 'productId'"

  /** What POST has before generation: a refusal, or the two images and the product name. */
  datatype Preflight = Refused(reply: TryOnReply) | Ready(avatar: InlineImage, product: InlineImage, productName: string)

  /**
   * The checks POST makes, in order, before any generation: session (401), API key (500),
   * body (500 when unparsable or null), productId (400), stored avatar image (400),
   * product image (400), then both image fetches (500 with the error's message).
   */
  function PreflightOf(rawId: JsValue, apiKey: string, body: Body, avatars: map<real, Row>,
                       productRow: JsValue -> Option<ProductRow>, baseUrl: Option<string>,
                       fetchImage: string -> ImageFetch): (p: Preflight)
    ensures RequireUserId(rawId).None? ==> p == Refused(Failure(401, NotSignedIn))
    ensures RequireUserId(rawId).Some? && apiKey == "" ==> p == Refused(Failure(500, NotConfigured))
    ensures p.Refused? ==> p.reply.Failure? && p.reply.status in {400, 401, 500}
    ensures RequireUserId(rawId).Some? && apiKey != "" && body.Unparsable? ==>
              p == Refused(Failure(500, ErrorPrefix + body.message))
    ensures RequireUserId(rawId).Some? && apiKey != "" && body.Parsed? && IsNullish(body.value) ==>
              p == Refused(Failure(500, ErrorPrefix + NullBodyMessage))
    ensures (body.Parsed? && !IsNullish(body.value) && !Truthy(Get(body.value, "productId"))
             && RequireUserId(rawId).Some? && apiKey != "") ==> p == Refused(Failure(400, ProductRequired))
    ensures p.Ready? ==> RequireUserId(rawId).Some? && apiKey != "" && body.Parsed?
                         && Truthy(Get(body.value, "productId"))
    ensures (body.Parsed? && !IsNullish(body.value) && Truthy(Get(body.value, "productId"))
             && RequireUserId(rawId).Some? && apiKey != "") ==>
      var avatar := RowOf(avatars, RequireUserId(rawId).value);
      var product := productRow(Get(body.value, "productId"));
      && (avatar.None? || avatar.value.imagenAvatar.None? || avatar.value.imagenAvatar.value == "" ==>
            p == Refused(Failure(400, NoAvatar)))
      && (avatar.Some? && avatar.value.imagenAvatar.Some? && avatar.value.imagenAvatar.value != ""
          && (product.None? || product.value.imagenProducto.None? || product.value.imagenProducto.value == "") ==>
            p == Refused(Failure(400, NoProductImage)))
      && (p.Ready? ==>
            && avatar.Some? && avatar.value.imagenAvatar.Some? && product.Some? && product.value.imagenProducto.Some?
            && var avatarUrl := ImageUrl(avatar.value.imagenAvatar.value, baseUrl);
               var productUrl := ImageUrl(product.value.imagenProducto.value, baseUrl);
               FetchImageAsBase64(avatarUrl, fetchImage(avatarUrl)) == Ok(p.avatar)
               && FetchImageAsBase64(productUrl, fetchImage(productUrl)) == Ok(p.product))
      && (avatar.Some? && avatar.value.imagenAvatar.Some? && avatar.value.imagenAvatar.value != ""
          && product.Some? && product.value.imagenProducto.Some? && product.value.imagenProducto.value != "" ==>
            var avatarUrl := ImageUrl(avatar.value.imagenAvatar.value, baseUrl);
            var productUrl := ImageUrl(product.value.imagenProducto.value, baseUrl);
            var a := FetchImageAsBase64(avatarUrl, fetchImage(avatarUrl));
            var b := FetchImageAsBase64(productUrl, fetchImage(productUrl));
            && (a.Err? ==> p == Refused(Failure(500, ErrorPrefix + FaultMessage(a.error))))
            && (a.Ok? && b.Err? ==> p == Refused(Failure(500, ErrorPrefix + FaultMessage(b.error))))
            && (a.Ok? && b.Ok? ==> p == Ready(a.value, b.value, ProductName(product.value.nombre))))
  {
    var id := RequireUserId(rawId);
    if id.None? then Refused(Failure(401, NotSignedIn))
    else if apiKey == "" then Refused(Failure(500, NotConfigured))
    else if body.Unparsable? then Refused(Failure(500, ErrorPrefix + body.message))
    else if IsNullish(body.value) then Refused(Failure(500, ErrorPrefix + NullBodyMessage))
    else
      var productId := Get(body.value, "productId");
      if !Truthy(productId) then Refused(Failure(400, ProductRequired))
      else
        var avatar := RowOf(avatars, id.value);
        if avatar.None? || avatar.value.imagenAvatar.None? || avatar.value.imagenAvatar.value == "" then
          Refused(Failure(400, NoAvatar))
        else
          var product := productRow(productId);
          if product.None? || product.value.imagenProducto.None? || product.value.imagenProducto.value == "" then
            Refused(Failure(400, NoProductImage))
          else
            var avatarUrl := ImageUrl(avatar.value.imagenAvatar.value, baseUrl);
            var productUrl := ImageUrl(product.value.imagenProducto.value, baseUrl);
            var avatarImage := FetchImageAsBase64(avatarUrl, fetchImage(avatarUrl));
            var productImage := FetchImageAsBase64(productUrl, fetchImage(productUrl));
            if avatarImage.Err? then Refused(Failure(500, ErrorPrefix + FaultMessage(avatarImage.error)))
            else if productImage.Err? then Refused(Failure(500, ErrorPrefix + FaultMessage(productImage.error)))
            else Ready(avatarImage.value, productImage.value, ProductName(product.value.nombre))
  }

  /** `productRows[0].nombre || "prenda"`: the product's name, or "prenda" when it is null or empty. */
  function ProductName(nombre: Option<string>): (r: string)
    ensures r != ""
    ensures nombre.Some? && nombre.value != "" ==> r == nombre.value
    ensures nombre.None? || nombre.value == "" ==> r == "prenda"
  {
    if nombre.Some? && nombre.value != "" then nombre.value else "prenda"
  }

  /**
   * POST: refused before any generation (no waits) when a check fails; otherwise both
   * views are generated, and no view at all is a 500.
   */
  method Post(table: AvatarTable, rawId: JsValue, apiKey: string, body: Body,
              productRow: JsValue -> Option<ProductRow>, baseUrl: Option<string>,
              fetchImage: string -> ImageFetch, outcome: nat -> nat -> Attempt)
    returns (reply: TryOnReply, delays: seq<nat>)
    ensures var p := PreflightOf(rawId, apiKey, body, table.rows, productRow, baseUrl, fetchImage);
      && (p.Refused? ==> reply == p.reply && delays == [])
      && (p.Ready? ==>
            var g := GenerateFrom(Views, outcome, |Views|);
            && delays == g.delays
            && (g.results == [] ==> reply == Failure(500, NothingGenerated))
            && (g.results != [] ==>
                  reply == Generated(g.results, "Se generaron " + NatToString(|g.results|) + " vistas del probador virtual.")))
  {
    var p := PreflightOf(rawId, apiKey, body, table.rows, productRow, baseUrl, fetchImage);
    if p.Refused? {
      return p.reply, [];
    }
    var g := GenerateTryOn(outcome);
    delays := g.delays;
    if g.results == [] {
      reply := Failure(500, NothingGenerated);
    } else {
      reply := Generated(g.results, "Se generaron " + NatToString(|g.results|) + " vistas del probador virtual.");
    }
  }
}
