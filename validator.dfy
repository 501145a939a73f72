/**
 * The photo validator (lib/avatarPhotoValidator.ts): it sends a photo to the vision
 * model and turns whatever JSON comes back into a well-formed verdict.
 */
module PhotoValidator {
  import opened Common
  import opened Js
  import opened AvatarTypes
  import opened VisionClient

  datatype Verdict = Approved | Rejected

  /** AvatarPhotoValidationResult. */
  datatype ValidationResult = ValidationResult(
    verdict: Verdict,
    confidence: Num,
    reasons: seq<string>,
    tips: seq<string>,
    photoScores: seq<PhotoScore>)

  // ---------------------------------------------------------------- numbers

  /** `Math.min(hi, Math.max(lo, n))`: NaN stays NaN, anything else lands in [lo, hi]. */
  function Clamp(n: Num, lo: real, hi: real): (r: Num)
    requires lo <= hi
    ensures r.NaN? <==> n.NaN?
    ensures r.Fin? ==> lo <= r.r <= hi
    ensures n.Fin? && lo <= n.r <= hi ==> r == n
    ensures n.Fin? && n.r < lo ==> r == Fin(lo)
    ensures n.Fin? && n.r > hi ==> r == Fin(hi)
  {
    match n
    case NaN => NaN
    case PosInf => Fin(hi)
    case NegInf => Fin(lo)
    case Fin(x) => Fin(if x < lo then lo else if x > hi then hi else x)
  }

  predicate IsIntegral(x: real) {
    x == x.Floor as real
  }

  /** Math.round: the nearest integer, halves rounded up. */
  function Round(n: Num): (r: Num)
    ensures r.NaN? <==> n.NaN?
    ensures n.Fin? ==> r.Fin? && IsIntegral(r.r) && n.r - 0.5 < r.r <= n.r + 0.5
    ensures !n.Fin? ==> r == n
  {
    match n
    case Fin(x) => Fin((x + 0.5).Floor as real)
    case _ => n
  }

  /** Rounding a clamped number keeps it in range when the bounds are integers. */
  lemma RoundClampInRange(n: Num, lo: int, hi: int)
    requires lo <= hi
    ensures var r := Round(Clamp(n, lo as real, hi as real));
            r.NaN? || (r.Fin? && lo as real <= r.r <= hi as real && IsIntegral(r.r))
  {
    var c := Clamp(n, lo as real, hi as real);
    if c.Fin? {
      RoundStaysBetween(c.r, lo, hi);
    }
  }

  lemma RoundStaysBetween(x: real, lo: int, hi: int)
    requires lo as real <= x <= hi as real
    ensures lo <= (x + 0.5).Floor <= hi
  {
    var k := (x + 0.5).Floor;
    assert k as real <= x + 0.5;
    assert x + 0.5 < k as real + 1.0;
  }

  lemma RoundOfIntegral(x: real)
    ensures IsIntegral(x) ==> Round(Fin(x)) == Fin(x)
  {
    if IsIntegral(x) {
      var k := x.Floor;
      assert (x + 0.5).Floor == k;
    }
  }

  /** normalizeScores' value rule: `Math.round(clamp(Number(v ?? 0), 0, 100))`. */
  function ScoreValue(v: JsValue): (r: Num)
    ensures r.NaN? || (r.Fin? && 0.0 <= r.r <= 100.0 && IsIntegral(r.r))
    ensures v.JNum? && v.n.Fin? && IsIntegral(v.n.r) && 0.0 <= v.n.r <= 100.0 ==> r == v.n
    ensures IsNullish(v) ==> r == Fin(0.0)
  {
    var n := ToNumber(Coalesce(v, JNum(Fin(0.0))));
    RoundClampInRange(n, 0, 100);
    if v.JNum? && v.n.Fin? then RoundOfIntegral(v.n.r); Round(Clamp(n, 0.0, 100.0)) else
    Round(Clamp(n, 0.0, 100.0))
  }

  // ---------------------------------------------------------------- lists

  /** The strings of `xs` that are not empty, in order. */
  function NonEmpty(xs: seq<string>): (r: seq<string>)
    ensures |r| <= |xs|
    ensures forall i :: 0 <= i < |r| ==> r[i] != "" && r[i] in xs
    ensures (forall i :: 0 <= i < |xs| ==> xs[i] != "") ==> r == xs
    ensures |xs| == 1 ==> r == (if xs[0] == "" then [] else xs)
  {
    if xs == [] then []
    else if xs[0] == "" then NonEmpty(xs[1..])
    else [xs[0]] + NonEmpty(xs[1..])
  }

  /**
   * The filter works entry by entry: filtering a concatenation filters each part. With
   * the one-entry case above, this fixes which strings are kept and in which order.
   */
  lemma {:induction false} NonEmptyAppend(a: seq<string>, b: seq<string>)
    ensures NonEmpty(a + b) == NonEmpty(a) + NonEmpty(b)
  {
    if a == [] {
      assert a + b == b;
    } else {
      assert (a + b)[1..] == a[1..] + b;
      NonEmptyAppend(a[1..], b);
    }
  }

  /** `typeof v === "string" ? v.trim() : ""` (null and undefined read as "" too), entry by entry. */
  function TrimmedTexts(values: seq<JsValue>): (r: seq<string>)
    ensures |r| == |values|
    ensures forall i :: 0 <= i < |values| ==> r[i] == (if values[i].JStr? then Trim(values[i].s) else "")
  {
    seq(|values|, i requires 0 <= i < |values| => if values[i].JStr? then Trim(values[i].s) else "")
  }

  /**
   * `v?.trim()` for one entry of `values.map(v => v?.trim())`: null and undefined give an
   * empty entry (dropped by the filter that follows); any other non-string has no `trim`
   * and throws.
   */
  function TrimEntry(v: JsValue): (r: Result<string>)
    ensures r.Err? <==> !v.JStr? && !IsNullish(v)
    ensures r.Err? ==> r.error == TypeError
    ensures r.Ok? ==> r.value == (if v.JStr? then Trim(v.s) else "")
  {
    if v.JStr? then Ok(Trim(v.s))
    else if IsNullish(v) then Ok("")
    else Err(TypeError)
  }

  lemma TrimmedTextsAppend(a: seq<JsValue>, b: seq<JsValue>)
    ensures TrimmedTexts(a + b) == TrimmedTexts(a) + TrimmedTexts(b)
  {
    var l := TrimmedTexts(a + b);
    var r := TrimmedTexts(a) + TrimmedTexts(b);
    forall i | 0 <= i < |l| ensures l[i] == r[i] {
      if i < |a| {
        assert (a + b)[i] == a[i];
      } else {
        assert (a + b)[i] == b[i - |a|];
      }
    }
  }

  /**
   * sanitizeList: a non-array gives no entries; otherwise the entries are trimmed, the
   * empty ones dropped, and at most the first six kept. An entry that is neither a
   * string nor nullish throws.
   */
  function SanitizeList(values: JsValue): (r: Result<seq<string>>)
    ensures !values.JArr? ==> r == Ok([])
    ensures r.Err? <==> values.JArr? && exists i :: 0 <= i < |values.items| && TrimEntry(values.items[i]).Err?
    ensures r.Ok? ==> |r.value| <= 6
    ensures r.Ok? ==> forall t :: t in r.value ==> t != "" && IsTrimmed(t) && values.JArr? && IsTrimmedEntry(values.items, t)
    ensures values.JArr? && r.Ok? ==> r.value == Take(NonEmpty(TrimmedTexts(values.items)), 6)
    ensures r.Err? ==> r.error == TypeError
  {
    if !values.JArr? then Ok([])
    else
      var trimmed :- MapResult(TrimEntry, values.items);
      KeptEntriesAreTrimmedItems(values.items, trimmed);
      assert trimmed == TrimmedTexts(values.items);
      Ok(Take(NonEmpty(trimmed), 6))
  }

  /** `t` is the trimmed text of one of the string entries. */
  predicate IsTrimmedEntry(items: seq<JsValue>, t: string) {
    exists j :: 0 <= j < |items| && items[j].JStr? && Trim(items[j].s) == t
  }

  /** Each entry sanitizeList keeps is the non-empty trimmed text of one of the given strings. */
  lemma KeptEntriesAreTrimmedItems(items: seq<JsValue>, trimmed: seq<string>)
    requires MapResult(TrimEntry, items) == Ok(trimmed)
    ensures forall t :: t in Take(NonEmpty(trimmed), 6) ==> t != "" && IsTrimmed(t) && IsTrimmedEntry(items, t)
  {
    var kept := NonEmpty(trimmed);
    forall t | t in Take(kept, 6)
      ensures t != "" && IsTrimmed(t) && IsTrimmedEntry(items, t)
    {
      var i :| 0 <= i < |kept| && kept[i] == t;
      var j :| 0 <= j < |trimmed| && trimmed[j] == t;
      assert TrimEntry(items[j]) == Ok(trimmed[j]);
      assert items[j].JStr? && Trim(items[j].s) == t;
      TrimIsTrimmed(items[j].s);
    }
  }

  function Strings(xs: seq<string>): (r: seq<JsValue>)
    ensures |r| == |xs| && forall i :: 0 <= i < |xs| ==> r[i] == JStr(xs[i])
  {
    seq(|xs|, i requires 0 <= i < |xs| => JStr(xs[i]))
  }

  /** Sanitising an already sanitised list changes nothing. */
  lemma SanitizeListIdempotent(values: JsValue)
    requires SanitizeList(values).Ok?
    ensures SanitizeList(JArr(Strings(SanitizeList(values).value))) == SanitizeList(values)
  {
    var r := SanitizeList(values).value;
    assert forall i :: 0 <= i < |r| ==> r[i] in r;
    SanitizeCleanList(r);
  }

  /** At most six trimmed, non-empty strings come back from sanitizeList as they are. */
  lemma SanitizeCleanList(r: seq<string>)
    requires |r| <= 6
    requires forall i :: 0 <= i < |r| ==> r[i] != "" && IsTrimmed(r[i])
    ensures SanitizeList(JArr(Strings(r))) == Ok(r)
  {
    TrimEachOfTrimmed(r);
    assert NonEmpty(r) == r;
    assert Take(r, 6) == r;
  }

  /** Trimming strings that are already trimmed gives them back. */
  lemma TrimEachOfTrimmed(xs: seq<string>)
    requires forall i :: 0 <= i < |xs| ==> IsTrimmed(xs[i])
    ensures MapResult(TrimEntry, Strings(xs)) == Ok(xs)
  {
    var entries := Strings(xs);
    forall i | 0 <= i < |xs| ensures TrimEntry(entries[i]) == Ok(xs[i]) {
      TrimOfTrimmed(xs[i]);
    }
    var r := MapResult(TrimEntry, entries);
    assert r.Ok?;
    assert |r.value| == |xs|;
    assert forall i :: 0 <= i < |xs| ==> r.value[i] == xs[i];
    assert r.value == xs;
  }

  /** Every score the validator hands back is labelled and rounded into [0, 100] (or NaN). */
  predicate WellFormedScores(scores: seq<PhotoScore>) {
    forall i :: 0 <= i < |scores| ==>
      scores[i].title != "" && IsTrimmed(scores[i].title)
      && (scores[i].value.NaN? || (scores[i].value.Fin? && 0.0 <= scores[i].value.r <= 100.0 && IsIntegral(scores[i].value.r)))
  }

  /** `label?.trim() || "Indicador"` for a label that is a string, null or undefined. */
  function ScoreTitle(given: JsValue): (t: string)
    requires given.JStr? || IsNullish(given)
    ensures t != "" && IsTrimmed(t)
    ensures given.JStr? && Trim(given.s) != "" ==> t == Trim(given.s)
    ensures IsNullish(given) || (given.JStr? && Trim(given.s) == "") ==> t == "Indicador"
  {
    if given.JStr? && Trim(given.s) != "" then
      TrimIsTrimmed(given.s);
      Trim(given.s)
    else "Indicador"
  }

  /** normalizeScores' per-entry rule: a trimmed label or "Indicador", a rounded value in [0, 100]. */
  function NormalizeScore(score: JsValue): (r: Result<PhotoScore>)
    ensures r.Err? <==> var l := OptGet(score, "label"); !l.JStr? && !IsNullish(l)
    ensures r.Err? ==> r.error == TypeError
    ensures r.Ok? ==> r.value.title == ScoreTitle(OptGet(score, "label"))
    ensures r.Ok? ==> r.value.value == ScoreValue(OptGet(score, "value"))
  {
    var given := OptGet(score, "label");
    if !given.JStr? && !IsNullish(given) then Err(TypeError)
    else Ok(PhotoScore(ScoreTitle(given), ScoreValue(OptGet(score, "value"))))
  }

  /** normalizeScores: no array or an empty one gives no scores; otherwise one score per entry. */
  function NormalizeScores(scores: JsValue): (r: Result<seq<PhotoScore>>)
    ensures !scores.JArr? || scores.items == [] ==> r == Ok([])
    ensures scores.JArr? && r.Ok? ==> |r.value| == |scores.items|
    ensures scores.JArr? ==> (r.Err? <==> exists i :: 0 <= i < |scores.items| && NormalizeScore(scores.items[i]).Err?)
    ensures r.Err? ==> r.error == TypeError
    ensures scores.JArr? && r.Ok? ==> forall i :: 0 <= i < |r.value| ==> NormalizeScore(scores.items[i]) == Ok(r.value[i])
    ensures r.Ok? ==> WellFormedScores(r.value)
  {
    if !scores.JArr? || scores.items == [] then Ok([])
    else
      var r := MapResult(NormalizeScore, scores.items);
      assert r.Ok? ==> WellFormedScores(r.value) by {
        if r.Ok? {
          forall i | 0 <= i < |r.value| ensures NormalizeScore(scores.items[i]) == Ok(r.value[i]) {
          }
        }
      }
      r
  }

  /** What any successful validation satisfies. */
  predicate WellFormed(v: ValidationResult) {
    && (v.confidence.NaN? || (v.confidence.Fin? && 0.0 <= v.confidence.r <= 1.0))
    && |v.reasons| <= 6 && |v.tips| <= 6
    && (v.verdict == Approved ==> v.reasons == [] && v.tips == [])
    && WellFormedScores(v.photoScores)
  }

  /**
   * normalizeValidationResult: only the exact string "approved" approves; the confidence
   * defaults to 0.5 and is clamped to [0, 1]; an approval carries no reasons or tips.
   * Reading a field of null or undefined throws.
   */
  function NormalizeValidationResult(raw: JsValue): (r: Result<ValidationResult>)
    ensures IsNullish(raw) ==> r == Err(TypeError)
    ensures r.Ok? ==> WellFormed(r.value)
    ensures r.Ok? ==> (r.value.verdict == Approved <==> Get(raw, "verdict") == JStr("approved"))
    ensures r.Ok? && r.value.verdict == Rejected ==>
      SanitizeList(Get(raw, "reasons")) == Ok(r.value.reasons) && SanitizeList(Get(raw, "tips")) == Ok(r.value.tips)
    ensures r.Ok? && IsNullish(Get(raw, "confidence")) ==> r.value.confidence == Fin(0.5)
    ensures r.Ok? && !IsNullish(Get(raw, "confidence")) ==>
      r.value.confidence == Clamp(ToNumber(Get(raw, "confidence")), 0.0, 1.0)
    ensures r.Ok? ==> NormalizeScores(Get(raw, "photoScores")) == Ok(r.value.photoScores)
    ensures !IsNullish(raw) ==>
      (r.Ok? <==> SanitizeList(Get(raw, "reasons")).Ok? && SanitizeList(Get(raw, "tips")).Ok?
                  && NormalizeScores(Get(raw, "photoScores")).Ok?)
    ensures r.Err? ==> r.error == TypeError
  {
    if IsNullish(raw) then Err(TypeError)
    else
      var verdict := if Get(raw, "verdict") == JStr("approved") then Approved else Rejected;
      var reasons :- SanitizeList(Get(raw, "reasons"));
      var tips :- SanitizeList(Get(raw, "tips"));
      var confidence := Clamp(ToNumber(Coalesce(Get(raw, "confidence"), JNum(Fin(0.5)))), 0.0, 1.0);
      var scores :- NormalizeScores(Get(raw, "photoScores"));
      Ok(ValidationResult(verdict, confidence,
                          if verdict == Approved then [] else reasons,
                          if verdict == Approved then [] else tips,
                          scores))
  }

  // ---------------------------------------------------------------- prompt and request

  /** `- key: String(value)`. */
  function MetaLine(entry: (string, JsValue)): string {
    "- " + entry.0 + ": " + JsString(entry.1)
  }

  function MetaLines(metadata: seq<(string, JsValue)>): (r: seq<string>)
    ensures |r| == |metadata| && forall i :: 0 <= i < |metadata| ==> r[i] == MetaLine(metadata[i])
  {
    seq(|metadata|, i requires 0 <= i < |metadata| => MetaLine(metadata[i]))
  }

  const ContextHeader: string := "\nContexto adicional:\n"

  /**
   * buildUserPrompt: without metadata the base prompt; otherwise the base prompt, a
   * context header and one line per metadata entry, in entry order.
   */
  function BuildUserPrompt(base: string, metadata: Option<seq<(string, JsValue)>>): (r: string)
    ensures metadata.None? || metadata.value == [] ==> r == base
    ensures metadata.Some? && metadata.value != [] ==>
      StartsWith(r, base + ContextHeader)
      && forall i :: 0 <= i < |metadata.value| ==> Contains(r, MetaLine(metadata.value[i]))
    ensures metadata.Some? && metadata.value != [] ==> r == base + ContextHeader + Join(MetaLines(metadata.value), "\n")
  {
    if metadata.None? || metadata.value == [] then base
    else
      var lines := MetaLines(metadata.value);
      var body := Join(lines, "\n");
      var r := base + ContextHeader + body;
      assert forall i :: 0 <= i < |lines| ==> Contains(r, lines[i]) by {
        forall i | 0 <= i < |lines| ensures Contains(r, lines[i]) {
          JoinContainsPart(lines, "\n", i);
          ContainsInSuffix(base + ContextHeader, body, lines[i]);
        }
      }
      r
  }

  lemma {:induction false} JoinContainsPart(parts: seq<string>, sep: string, i: int)
    requires 0 <= i < |parts|
    ensures Contains(Join(parts, sep), parts[i])
  {
    var j := Join(parts, sep);
    if |parts| == 1 {
      assert OccursAt(j, parts[0], 0);
    } else if i == 0 {
      assert j[0..|parts[0]|] == parts[0];
      assert OccursAt(j, parts[0], 0);
    } else {
      JoinContainsPart(parts[1..], sep, i - 1);
      ContainsInSuffix(parts[0] + sep, Join(parts[1..], sep), parts[i]);
    }
  }

  /**
   * `join` puts the separator between neighbours only: a list split anywhere joins to the
   * join of its two parts around one separator. With `Join([x]) == x` this fixes the order
   * of the parts and the separators between them.
   */
  lemma {:induction false} JoinSplits(parts: seq<string>, sep: string, k: int)
    requires 0 < k < |parts|
    ensures Join(parts, sep) == Join(parts[..k], sep) + sep + Join(parts[k..], sep)
  {
    if k > 1 {
      assert parts[1..][..k - 1] == parts[1..k];
      assert parts[1..][k - 1..] == parts[k..];
      JoinSplits(parts[1..], sep, k - 1);
      assert parts[..k][1..] == parts[1..k];
    } else {
      assert parts[..1] == [parts[0]];
      assert parts[1..] == parts[k..];
    }
  }

  lemma ContainsInSuffix(a: string, b: string, sub: string)
    requires Contains(b, sub)
    ensures Contains(a + b, sub)
  {
    var k :| 0 <= k <= |b| - |sub| && OccursAt(b, sub, k);
    assert (a + b)[|a| + k..|a| + k + |sub|] == b[k..k + |sub|];
    assert OccursAt(a + b, sub, |a| + k);
  }

  /** The fixed texts of the request: the system prompt, the base user prompt and the answer schema. */
  datatype PromptTexts = PromptTexts(system: string, user: string, schema: JsValue)

  function TextChunk(text: string): JsValue {
    JObj(map["type" := JStr("text"), "text" := JStr(text)])
  }

  /** The chat-completions body: a system message and a user message carrying the prompt and the image. */
  function ValidationRequestBody(prompts: PromptTexts, userPrompt: string, imageReference: string): JsValue {
    JObj(map[
      "messages" := JArr([
        JObj(map["role" := JStr("system"), "content" := JArr([TextChunk(prompts.system)])]),
        JObj(map["role" := JStr("user"), "content" := JArr([
          TextChunk(userPrompt),
          JObj(map["type" := JStr("image_url"), "image_url" := JObj(map["url" := JStr(imageReference)])])])])
      ]),
      "response_format" := JObj(map["type" := JStr("json_schema"), "json_schema" := prompts.schema])
    ])
  }

  /** The input of validateAvatarPhoto: an image source and optional metadata entries. */
  datatype ValidationInput = ValidationInput(source: ImageSource, metadata: Option<seq<(string, JsValue)>>)

  /**
   * validateAvatarPhoto: resolve the image, ask the model, extract and normalise its
   * JSON. A missing image fails before any request; a success is always well formed.
   */
  function ValidateAvatarPhoto(input: ValidationInput, prompts: PromptTexts, env: Env,
                               send: Request -> Result<Reply>, parse: string -> Option<JsValue>): (r: Result<ValidationResult>)
    ensures ResolveImageReference(input.source).Err? ==> r == Err(ImageRequired)
    ensures GetAzureAiConfig(env).Err? && ResolveImageReference(input.source).Ok? ==> r == Err(ConfigMissing)
    ensures r.Ok? ==> WellFormed(r.value)
    ensures ResolveImageReference(input.source).Ok? ==>
      var body := ValidationRequestBody(prompts, BuildUserPrompt(prompts.user, input.metadata),
                                        ResolveImageReference(input.source).value);
      var response := PostAzureChatCompletion(env, body, send, parse);
      && (response.Err? ==> r == Err(response.error))
      && (response.Ok? ==>
            var parsed := ExtractJsonFromResponses(response.value, parse);
            && (parsed.Err? ==> r == Err(parsed.error))
            && (parsed.Ok? ==> r == NormalizeValidationResult(parsed.value)))
  {
    var imageReference :- ResolveImageReference(input.source);
    var body := ValidationRequestBody(prompts, BuildUserPrompt(prompts.user, input.metadata), imageReference);
    var response :- PostAzureChatCompletion(env, body, send, parse);
    var parsed :- ExtractJsonFromResponses(response, parse);
    NormalizeValidationResult(parsed)
  }

  /** A reply whose message is the JSON text of an approval yields an approval with no reasons. */
  lemma ApprovalHasNoReasons(raw: map<string, JsValue>)
    requires "verdict" in raw && raw["verdict"] == JStr("approved")
    requires NormalizeValidationResult(JObj(raw)).Ok?
    ensures NormalizeValidationResult(JObj(raw)).value.verdict == Approved
    ensures NormalizeValidationResult(JObj(raw)).value.reasons == []
  {
  }
}
