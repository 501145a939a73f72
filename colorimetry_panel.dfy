/**
 * The colorimetry panel of the profile page: how it normalises the two palettes it is
 * given, how it formats the season, skin tone and undertone, and which of its camelCase
 * and snake_case props wins when both are passed.
 */
module ColorimetryPanel {
  import opened Common
  import opened Js

  const UnnamedSwatch: string := "Sin nombre"
  const FallbackHex: string := "#f5f5f4"
  const NoData: string := "Sin dato"

  /**
   * A swatch as the panel renders it. `item.name || "Sin nombre"` yields whatever truthy
   * value the item carried, so the fields are JavaScript values, not strings.
   */
  datatype ShownSwatch = ShownSwatch(name: JsValue, hex: JsValue)

  /** `a || b`. */
  function Or(a: JsValue, b: JsValue): JsValue {
    if Truthy(a) then a else b
  }

  /** `items.filter((item) => Boolean(item))`: the truthy items, in order. */
  function Truthies(items: seq<JsValue>): (kept: seq<JsValue>)
    ensures |kept| <= |items|
    ensures forall x :: x in kept ==> Truthy(x)
  {
    if items == [] then []
    else (if Truthy(items[0]) then [items[0]] else []) + Truthies(items[1..])
  }

  /** The filter drops only falsy items: every truthy value is kept as often as it occurs. */
  lemma {:induction false} TruthiesKeepEveryTruthy(items: seq<JsValue>, x: JsValue)
    requires Truthy(x)
    ensures multiset(Truthies(items))[x] == multiset(items)[x]
  {
    if items != [] {
      assert items == [items[0]] + items[1..];
      TruthiesKeepEveryTruthy(items[1..], x);
    }
  }

  /** Filtering a concatenation filters each part and keeps their order. */
  lemma {:induction false} TruthiesAppend(a: seq<JsValue>, b: seq<JsValue>)
    ensures Truthies(a + b) == Truthies(a) + Truthies(b)
  {
    if a == [] {
      assert a + b == b;
    } else {
      assert (a + b)[1..] == a[1..] + b;
      TruthiesAppend(a[1..], b);
    }
  }

  /** Filtering items that are all truthy drops nothing. */
  lemma {:induction false} TruthiesOfTruthy(items: seq<JsValue>)
    requires forall i :: 0 <= i < |items| ==> Truthy(items[i])
    ensures Truthies(items) == items
  {
    if items != [] {
      TruthiesOfTruthy(items[1..]);
    }
  }

  /** The `map` step: a missing or falsy name or hex falls back to its default. */
  function ShowSwatch(item: JsValue): (s: ShownSwatch)
    ensures Truthy(s.name) && Truthy(s.hex)
    ensures Truthy(Get(item, "name")) <==> s.name == Get(item, "name")
    ensures Truthy(Get(item, "hex")) <==> s.hex == Get(item, "hex")
  {
    ShownSwatch(Or(Get(item, "name"), JStr(UnnamedSwatch)), Or(Get(item, "hex"), JStr(FallbackHex)))
  }

  /**
   * normalizeSwatches: [] unless the value is an array; otherwise every truthy item, in
   * order, with a name and a hex that are never empty.
   */
  function NormalizeSwatches(value: JsValue): (r: seq<ShownSwatch>)
    ensures !value.JArr? ==> r == []
    ensures value.JArr? ==> var kept := Truthies(value.items);
      |r| == |kept| && forall i :: 0 <= i < |r| ==> r[i] == ShowSwatch(kept[i])
    ensures forall i :: 0 <= i < |r| ==> Truthy(r[i].name) && Truthy(r[i].hex)
  {
    if !Truthy(value) || !value.JArr? then []
    else
      var kept := Truthies(value.items);
      seq(|kept|, i requires 0 <= i < |kept| => ShowSwatch(kept[i]))
  }

  /** The object a normalised swatch is. */
  function SwatchObject(s: ShownSwatch): JsValue {
    JObj(map["name" := s.name, "hex" := s.hex])
  }

  /** Normalising an array splits over concatenation: order is kept. */
  lemma NormalizeKeepsOrder(a: seq<JsValue>, b: seq<JsValue>)
    ensures NormalizeSwatches(JArr(a + b)) == NormalizeSwatches(JArr(a)) + NormalizeSwatches(JArr(b))
  {
    TruthiesAppend(a, b);
    var ka, kb := Truthies(a), Truthies(b);
    var r, ra, rb := NormalizeSwatches(JArr(a + b)), NormalizeSwatches(JArr(a)), NormalizeSwatches(JArr(b));
    assert |r| == |ra| + |rb|;
    forall i | 0 <= i < |r|
      ensures r[i] == (ra + rb)[i]
    {
      if i < |ka| {
        assert (ka + kb)[i] == ka[i];
      } else {
        assert (ka + kb)[i] == kb[i - |ka|];
      }
    }
  }

  /** Normalising the panel's own output again changes nothing. */
  lemma NormalizeSwatchesIdempotent(value: JsValue)
    ensures var r := NormalizeSwatches(value);
      NormalizeSwatches(JArr(seq(|r|, i requires 0 <= i < |r| => SwatchObject(r[i])))) == r
  {
    var r := NormalizeSwatches(value);
    var objects := seq(|r|, i requires 0 <= i < |r| => SwatchObject(r[i]));
    TruthiesOfTruthy(objects);
    forall i | 0 <= i < |r|
      ensures ShowSwatch(objects[i]) == r[i]
    {
      ShowSwatchObject(r[i]);
    }
  }

  /** A normalised swatch, written back as an object, normalises to itself. */
  lemma ShowSwatchObject(s: ShownSwatch)
    requires Truthy(s.name) && Truthy(s.hex)
    ensures ShowSwatch(SwatchObject(s)) == s
  {
    var o := SwatchObject(s);
    assert Get(o, "name") == s.name;
    assert Get(o, "hex") == s.hex;
  }

  /** formatMeta: the trimmed value, or "Sin dato" when it is missing or blank. */
  function FormatMeta(value: Option<string>): (r: string)
    ensures r != [] && IsTrimmed(r)
    ensures r == NoData || (value.Some? && r == Trim(value.value))
  {
    if value.Some? && Trim(value.value) != [] then
      TrimIsTrimmed(value.value);
      Trim(value.value)
    else
      NoDataIsTrimmed();
      NoData
  }

  /** The placeholder is itself a trimmed, non-empty text. */
  lemma NoDataIsTrimmed()
    ensures NoData != [] && IsTrimmed(NoData)
  {
  }

  /** The placeholder shows exactly when the value is missing or all white space. */
  lemma FormatMetaPlaceholder(value: Option<string>)
    ensures value.None? ==> FormatMeta(value) == NoData
    ensures value.Some? ==> (FormatMeta(value) ==
      if forall i :: 0 <= i < |value.value| ==> IsWhite(value.value[i]) then NoData else Trim(value.value))
  {
    if value.Some? {
      TrimBlank(value.value);
    }
  }

  /** Formatting what formatMeta shows shows it unchanged. */
  lemma FormatMetaIdempotent(value: Option<string>)
    ensures FormatMeta(Some(FormatMeta(value))) == FormatMeta(value)
  {
    TrimOfTrimmed(FormatMeta(value));
  }

  /**
   * The props of the panel. `null` and `undefined` string props are both None, since
   * `??` treats them alike; palettes stay JavaScript values because the panel checks
   * them with Array.isArray.
   */
  datatype PanelProps = PanelProps(
    temporada_palette: Option<string>,
    tono_piel: Option<string>,
    subtono: Option<string>,
    colores_recomendados_json: JsValue,
    colores_evitar_json: JsValue,
    temporadaPalette: Option<string>,
    tonoPiel: Option<string>,
    coloresRecomendados: JsValue,
    coloresEvitar: JsValue)

  /** What the panel shows: the three meta cards and the two normalised palettes. */
  datatype Panel = Panel(
    temporada: string,
    tono: string,
    subtono: string,
    recommended: seq<ShownSwatch>,
    avoid: seq<ShownSwatch>)

  /** `a ?? b` on props that are a string, null or undefined. */
  function OrElse(a: Option<string>, b: Option<string>): (r: Option<string>)
    ensures r.Some? <==> a.Some? || b.Some?
  {
    if a.Some? then a else b
  }

  /** The panel's prop resolution and formatting. */
  function RenderPanel(props: PanelProps): (p: Panel)
    ensures p.temporada != [] && p.tono != [] && p.subtono != []
    ensures forall i :: 0 <= i < |p.recommended| ==> Truthy(p.recommended[i].name) && Truthy(p.recommended[i].hex)
    ensures forall i :: 0 <= i < |p.avoid| ==> Truthy(p.avoid[i].name) && Truthy(p.avoid[i].hex)
  {
    Panel(
      FormatMeta(OrElse(props.temporadaPalette, props.temporada_palette)),
      FormatMeta(OrElse(props.tonoPiel, props.tono_piel)),
      FormatMeta(props.subtono),
      NormalizeSwatches(Coalesce(props.coloresRecomendados, props.colores_recomendados_json)),
      NormalizeSwatches(Coalesce(props.coloresEvitar, props.colores_evitar_json)))
  }

  /** A camelCase prop that is passed (even blank or empty) hides its snake_case twin. */
  lemma CamelCaseWins(props: PanelProps)
    ensures var p := RenderPanel(props);
      && (props.temporadaPalette.Some? ==> p.temporada == FormatMeta(props.temporadaPalette))
      && (props.tonoPiel.Some? ==> p.tono == FormatMeta(props.tonoPiel))
      && (!IsNullish(props.coloresRecomendados) ==> p.recommended == NormalizeSwatches(props.coloresRecomendados))
      && (!IsNullish(props.coloresEvitar) ==> p.avoid == NormalizeSwatches(props.coloresEvitar))
  {
  }

  /** A missing camelCase prop falls back to the snake_case one. */
  lemma SnakeCaseFallback(props: PanelProps)
    ensures var p := RenderPanel(props);
      && (props.temporadaPalette.None? ==> p.temporada == FormatMeta(props.temporada_palette))
      && (props.tonoPiel.None? ==> p.tono == FormatMeta(props.tono_piel))
      && (IsNullish(props.coloresRecomendados) ==> p.recommended == NormalizeSwatches(props.colores_recomendados_json))
      && (IsNullish(props.coloresEvitar) ==> p.avoid == NormalizeSwatches(props.colores_evitar_json))
  {
  }

  /** Because `??` is not `||`, an empty camelCase palette leaves the panel empty even when the snake_case one is filled. */
  lemma EmptyCamelPaletteHidesSnake(props: PanelProps)
    requires props.coloresRecomendados == JArr([])
    ensures RenderPanel(props).recommended == []
  {
  }
}
