/**
 * The colour analysis (lib/colorimetriaModel.ts): it asks the vision model for a season,
 * skin tone, undertone and two palettes, and cleans the answer; every failure becomes
 * "no analysis".
 */
module Colorimetry {
  import opened Common
  import opened Js
  import opened AvatarTypes
  import opened VisionClient
  import PhotoValidator

  const FallbackRecommended: seq<Swatch> := [
    Swatch("Terracota", "#D96C4D"),
    Swatch("Oliva", "#7A8B4F"),
    Swatch("Mostaza", "#E2B13C"),
    Swatch("Caramelo", "#C08A5C")
  ]

  const FallbackAvoid: seq<Swatch> := [
    Swatch("Negro puro", "#050505"),
    Swatch("Gris frío", "#8D99AE"),
    Swatch("Azul hielo", "#B7D0E8")
  ]

  /** ColorimetriaResponsePayload. */
  datatype ColorimetriaPayload = ColorimetriaPayload(
    temporadaPalette: Option<string>,
    tonoPiel: Option<string>,
    subtono: Option<string>,
    coloresRecomendados: seq<Swatch>,
    coloresEvitar: seq<Swatch>)

  predicate IsHexDigit(c: char) {
    '0' <= c <= '9' || 'a' <= c <= 'f' || 'A' <= c <= 'F'
  }

  /** `/^#([0-9a-fA-F]{3}|[0-9a-fA-F]{6})$/`. */
  predicate IsHexColor(s: string) {
    (|s| == 4 || |s| == 7) && s[0] == '#' && forall i :: 1 <= i < |s| ==> IsHexDigit(s[i])
  }

  /**
   * normalizeHex: a string is trimmed and given a leading '#' when it lacks one; the
   * result is kept only when it is a 3- or 6-digit hex colour. Anything else gives "".
   */
  function NormalizeHex(value: JsValue): (r: string)
    ensures r == "" || IsHexColor(r)
    ensures !value.JStr? ==> r == ""
    ensures value.JStr? && r != "" ==> r == Trim(value.s) || r == "#" + Trim(value.s)
    ensures value.JStr? && IsHexColor(Trim(value.s)) ==> r == Trim(value.s)
  {
    if !value.JStr? then ""
    else
      var t := Trim(value.s);
      var cleaned := if StartsWith(t, "#") then t else "#" + t;
      if IsHexColor(cleaned) then cleaned else ""
  }

  /** A normalised hex colour normalises to itself. */
  lemma NormalizeHexIdempotent(value: JsValue)
    ensures NormalizeHex(JStr(NormalizeHex(value))) == NormalizeHex(value)
  {
    var r := NormalizeHex(value);
    if r != "" {
      assert IsTrimmed(r);
      TrimOfTrimmed(r);
    }
  }

  /** Six hex digits without the '#' are accepted and given one. */
  lemma NormalizeHexAddsHash(digits: string)
    requires |digits| == 6 && forall i :: 0 <= i < 6 ==> IsHexDigit(digits[i])
    ensures NormalizeHex(JStr(digits)) == "#" + digits
  {
    assert !IsWhite(digits[0]) && !IsWhite(digits[5]);
    TrimOfTrimmed(digits);
    assert !StartsWith(digits, "#") by { assert digits[..1] != "#"; }
    var h := "#" + digits;
    assert forall i :: 1 <= i < 7 ==> h[i] == digits[i - 1];
  }

  /** cleanText: a string trimmed, or None when it is not a string or is blank. */
  function CleanText(value: JsValue): (r: Option<string>)
    ensures r.None? <==> !value.JStr? || Trim(value.s) == ""
    ensures r.Some? ==> r.value == Trim(value.s) && r.value != "" && IsTrimmed(r.value)
  {
    if !value.JStr? then None
    else
      TrimIsTrimmed(value.s);
      var t := Trim(value.s);
      if t == [] then None else Some(t)
  }

  /** `name?.trim() || "Color"` for a name that is a string, null or undefined. */
  function ModelColorName(given: JsValue): (t: string)
    requires given.JStr? || IsNullish(given)
    ensures t != "" && IsTrimmed(t)
    ensures given.JStr? && Trim(given.s) != "" ==> t == Trim(given.s)
    ensures IsNullish(given) || (given.JStr? && Trim(given.s) == "") ==> t == "Color"
  {
    if given.JStr? && Trim(given.s) != "" then
      TrimIsTrimmed(given.s);
      Trim(given.s)
    else "Color"
  }

  /** normalizeModelColors' per-entry rule: `{ name: trimmed name || "Color", hex: normalizeHex(hex) }`. */
  function NormalizeModelColor(color: JsValue): (r: Result<Swatch>)
    ensures r.Err? <==> var n := OptGet(color, "name"); !n.JStr? && !IsNullish(n)
    ensures r.Err? ==> r.error == TypeError
    ensures r.Ok? ==> r.value.name == ModelColorName(OptGet(color, "name")) && r.value.hex == NormalizeHex(OptGet(color, "hex"))
  {
    var n := OptGet(color, "name");
    if !n.JStr? && !IsNullish(n) then Err(TypeError)
    else Ok(Swatch(ModelColorName(n), NormalizeHex(OptGet(color, "hex"))))
  }

  predicate ValidSwatches(xs: seq<Swatch>) {
    forall i :: 0 <= i < |xs| ==> IsHexColor(xs[i].hex) && xs[i].name != ""
  }

  /** The filter of normalizeModelColors: swatches whose hex was rejected are dropped, the rest kept in order. */
  function KeepColored(xs: seq<Swatch>): (r: seq<Swatch>)
    ensures |r| <= |xs|
    ensures forall x :: x in r ==> x in xs && x.hex != ""
    ensures (forall i :: 0 <= i < |xs| ==> xs[i].hex != "") ==> r == xs
    ensures (forall i :: 0 <= i < |xs| ==> xs[i].hex == "") ==> r == []
    ensures |xs| == 1 ==> r == (if xs[0].hex == "" then [] else xs)
  {
    if xs == [] then []
    else
      var rest := KeepColored(xs[1..]);
      assert forall x :: x in xs[1..] ==> x in xs;
      if xs[0].hex == "" then rest else [xs[0]] + rest
  }

  /**
   * The filter works swatch by swatch: filtering a concatenation filters each part. With
   * the one-swatch case above, this fixes which swatches are kept and in which order.
   */
  lemma {:induction false} KeepColoredAppend(a: seq<Swatch>, b: seq<Swatch>)
    ensures KeepColored(a + b) == KeepColored(a) + KeepColored(b)
  {
    if a == [] {
      assert a + b == b;
    } else {
      assert (a + b)[1..] == a[1..] + b;
      KeepColoredAppend(a[1..], b);
    }
  }

  /** normalizeModelColors: None for a missing or non-array value, or when no entry survives. */
  function NormalizeModelColors(raw: JsValue): (r: Result<Option<seq<Swatch>>>)
    ensures !raw.JArr? ==> r == Ok(None)
    ensures raw.JArr? ==> (r.Err? <==> exists i :: 0 <= i < |raw.items| && NormalizeModelColor(raw.items[i]).Err?)
    ensures r.Ok? && r.value.Some? ==> r.value.value != [] && ValidSwatches(r.value.value)
    ensures r.Err? ==> r.error == TypeError
    ensures raw.JArr? && r.Ok? ==>
      var kept := KeepColored(MapResult(NormalizeModelColor, raw.items).value);
      r.value == (if kept == [] then None else Some(kept))
  {
    if !raw.JArr? then Ok(None)
    else
      var mapped :- MapResult(NormalizeModelColor, raw.items);
      var kept := KeepColored(mapped);
      KeptColorsAreValid(raw.items, mapped);
      Ok(if kept == [] then None else Some(kept))
  }

  /** Every swatch that survives the filter has a name and a well-formed hex colour. */
  lemma KeptColorsAreValid(colors: seq<JsValue>, mapped: seq<Swatch>)
    requires MapResult(NormalizeModelColor, colors) == Ok(mapped)
    ensures ValidSwatches(KeepColored(mapped))
  {
    var kept := KeepColored(mapped);
    forall i | 0 <= i < |kept| ensures IsHexColor(kept[i].hex) && kept[i].name != "" {
      assert kept[i] in kept;
      var j :| 0 <= j < |mapped| && mapped[j] == kept[i];
      assert NormalizeModelColor(colors[j]) == Ok(mapped[j]);
    }
  }

  /** When every entry carries a usable hex colour, none is dropped. */
  lemma UsableColorsAllKept(colors: seq<JsValue>)
    requires forall j :: 0 <= j < |colors| ==> NormalizeHex(OptGet(colors[j], "hex")) != ""
    requires MapResult(NormalizeModelColor, colors).Ok?
    ensures var mapped := MapResult(NormalizeModelColor, colors).value; KeepColored(mapped) == mapped
  {
    var mapped := MapResult(NormalizeModelColor, colors).value;
    forall i | 0 <= i < |mapped| ensures mapped[i].hex != "" {
      assert NormalizeModelColor(colors[i]) == Ok(mapped[i]);
    }
  }

  /** The fixed palettes are themselves well formed. */
  lemma FallbacksAreValid()
    ensures ValidSwatches(FallbackRecommended) && ValidSwatches(FallbackAvoid)
  {
  }

  /** What every analysis the pipeline stores satisfies. */
  predicate WellFormed(p: ColorimetriaPayload) {
    && p.coloresRecomendados != [] && ValidSwatches(p.coloresRecomendados)
    && p.coloresEvitar != [] && ValidSwatches(p.coloresEvitar)
    && (p.temporadaPalette.Some? ==> p.temporadaPalette.value != "")
    && (p.tonoPiel.Some? ==> p.tonoPiel.value != "")
    && (p.subtono.Some? ==> p.subtono.value != "")
  }

  /**
   * normalizeColorimetria: a falsy answer is no analysis; otherwise the texts are
   * cleaned and each palette falls back to its fixed list when the model gave none.
   */
  function NormalizeColorimetria(raw: JsValue): (r: Result<Option<ColorimetriaPayload>>)
    ensures !Truthy(raw) ==> r == Ok(None)
    ensures Truthy(raw) && r.Ok? ==> r.value.Some?
    ensures r.Ok? && r.value.Some? ==> WellFormed(r.value.value)
    ensures r.Ok? && r.value.Some? && NormalizeModelColors(Get(raw, "coloresRecomendados")) == Ok(None) ==>
      r.value.value.coloresRecomendados == FallbackRecommended
    ensures r.Ok? && r.value.Some? && NormalizeModelColors(Get(raw, "coloresEvitar")) == Ok(None) ==>
      r.value.value.coloresEvitar == FallbackAvoid
    ensures r.Ok? && r.value.Some? ==> r.value.value.temporadaPalette == CleanText(Get(raw, "temporadaPalette"))
    ensures r.Ok? && r.value.Some? ==> r.value.value.tonoPiel == CleanText(Get(raw, "tonoPiel"))
    ensures r.Ok? && r.value.Some? ==> r.value.value.subtono == CleanText(Get(raw, "subtono"))
    ensures r.Ok? && r.value.Some? && NormalizeModelColors(Get(raw, "coloresRecomendados")).Ok?
            && NormalizeModelColors(Get(raw, "coloresRecomendados")).value.Some? ==>
      r.value.value.coloresRecomendados == NormalizeModelColors(Get(raw, "coloresRecomendados")).value.value
    ensures r.Ok? && r.value.Some? && NormalizeModelColors(Get(raw, "coloresEvitar")).Ok?
            && NormalizeModelColors(Get(raw, "coloresEvitar")).value.Some? ==>
      r.value.value.coloresEvitar == NormalizeModelColors(Get(raw, "coloresEvitar")).value.value
    ensures Truthy(raw) ==>
      (r.Err? <==> NormalizeModelColors(Get(raw, "coloresRecomendados")).Err?
                   || NormalizeModelColors(Get(raw, "coloresEvitar")).Err?)
    ensures r.Err? ==> r.error == TypeError
  {
    if !Truthy(raw) then Ok(None)
    else
      var recommended :- NormalizeModelColors(Get(raw, "coloresRecomendados"));
      var avoid :- NormalizeModelColors(Get(raw, "coloresEvitar"));
      FallbacksAreValid();
      Ok(Some(ColorimetriaPayload(
        CleanText(Get(raw, "temporadaPalette")),
        CleanText(Get(raw, "tonoPiel")),
        CleanText(Get(raw, "subtono")),
        recommended.GetOr(FallbackRecommended),
        avoid.GetOr(FallbackAvoid))))
  }

  /** The body of the colour-analysis request; same message layout as the photo validation. */
  function ColorimetriaRequestBody(prompts: PhotoValidator.PromptTexts, userPrompt: string, imageReference: string): JsValue {
    PhotoValidator.ValidationRequestBody(prompts, userPrompt, imageReference)
  }

  /**
   * fetchColorimetriaForAvatar: resolve the image, ask the model, extract and normalise;
   * any failure on the way is swallowed into None.
   */
  function FetchColorimetriaForAvatar(input: PhotoValidator.ValidationInput, prompts: PhotoValidator.PromptTexts, env: Env,
                                      send: Request -> Result<Reply>, parse: string -> Option<JsValue>): (r: Option<ColorimetriaPayload>)
    ensures ResolveImageReference(input.source).Err? ==> r.None?
    ensures GetAzureAiConfig(env).Err? ==> r.None?
    ensures r.Some? ==> WellFormed(r.value)
    ensures ResolveImageReference(input.source).Ok? ==>
      var body := ColorimetriaRequestBody(prompts, PhotoValidator.BuildUserPrompt(prompts.user, input.metadata),
                                          ResolveImageReference(input.source).value);
      var response := PostAzureChatCompletion(env, body, send, parse);
      && (response.Err? ==> r.None?)
      && (response.Ok? ==>
            var parsed := ExtractJsonFromResponses(response.value, parse);
            && (parsed.Err? ==> r.None?)
            && (parsed.Ok? ==> r == (match NormalizeColorimetria(parsed.value) case Ok(p) => p case Err(_) => None)))
  {
    var attempt: Result<Option<ColorimetriaPayload>> :=
      var imageReference :- ResolveImageReference(input.source);
      var body := ColorimetriaRequestBody(prompts, PhotoValidator.BuildUserPrompt(prompts.user, input.metadata), imageReference);
      var response :- PostAzureChatCompletion(env, body, send, parse);
      var parsed :- ExtractJsonFromResponses(response, parse);
      NormalizeColorimetria(parsed);
    match attempt
    case Ok(p) => p
    case Err(_) => None
  }

  /** An answer whose recommended palette holds no usable colour still yields the fallback palette. */
  lemma UnusableRecommendedFallsBack(raw: map<string, JsValue>, junk: seq<JsValue>)
    requires "coloresRecomendados" in raw
    requires raw["coloresRecomendados"] == JArr(junk)
    requires forall i :: 0 <= i < |junk| ==> NormalizeModelColor(junk[i]).Ok? && NormalizeHex(OptGet(junk[i], "hex")) == ""
    requires NormalizeColorimetria(JObj(raw)).Ok?
    ensures NormalizeColorimetria(JObj(raw)).value.value.coloresRecomendados == FallbackRecommended
  {
    NoValidColorsMeansEmpty(junk);
  }

  /** When no entry carries a usable hex colour, nothing survives the filter. */
  lemma NoValidColorsMeansEmpty(colors: seq<JsValue>)
    requires forall i :: 0 <= i < |colors| ==> NormalizeModelColor(colors[i]).Ok? && NormalizeHex(OptGet(colors[i], "hex")) == ""
    ensures MapResult(NormalizeModelColor, colors).Ok?
    ensures KeepColored(MapResult(NormalizeModelColor, colors).value) == []
  {
    var mapped := MapResult(NormalizeModelColor, colors).value;
    forall i | 0 <= i < |mapped| ensures mapped[i].hex == "" {
      assert NormalizeModelColor(colors[i]) == Ok(mapped[i]);
    }
  }
}
