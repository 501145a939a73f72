/**
 * The colour swatches on a product page (app/components/products/ProductVariations.tsx):
 * the variations are deduplicated by their colour name, trimmed and lower-cased, keeping
 * the first variation of each colour; each swatch takes its colour from a fixed table.
 */
module ProductVariations {
  import opened Common
  import opened Js
  import Colorimetry

  /** `(v?.especificaciones?.color || "").toString().trim().toLowerCase()`. */
  function ColorKey(v: JsValue): string {
    var color := OptGet(OptGet(v, "especificaciones"), "color");
    ToLower(Trim(if Truthy(color) then JsString(color) else ""))
  }

  /** A variation has no colour key when its colour is missing, falsy or blank. */
  lemma BlankColorHasNoKey(v: JsValue)
    ensures var color := OptGet(OptGet(v, "especificaciones"), "color");
      ColorKey(v) == "" <==> !Truthy(color) || Trim(JsString(color)) == ""
  {
  }

  /** The key of every item. */
  function Keys(items: seq<JsValue>, key: JsValue -> string): (keys: seq<string>)
    ensures |keys| == |items| && forall i :: 0 <= i < |items| ==> keys[i] == key(items[i])
  {
    seq(|items|, i requires 0 <= i < |items| => key(items[i]))
  }

  /** Position i holds the first occurrence of its key, and the key is not blank. */
  predicate FirstOfItsKey(keys: seq<string>, i: nat)
    requires i < |keys|
  {
    keys[i] != "" && forall j :: 0 <= j < i ==> keys[j] != keys[i]
  }

  /** The items among the first n whose key occurs there for the first time, in input order. */
  function FirstOccurrences(items: seq<JsValue>, keys: seq<string>, n: nat): seq<JsValue>
    requires n <= |items| == |keys|
  {
    if n == 0 then []
    else FirstOccurrences(items, keys, n - 1) + (if FirstOfItsKey(keys, n - 1) then [items[n - 1]] else [])
  }

  /** The non-blank keys among the first n. */
  function KeysSeen(keys: seq<string>, n: nat): set<string>
    requires n <= |keys|
  {
    if n == 0 then {} else KeysSeen(keys, n - 1) + (if keys[n - 1] != "" then {keys[n - 1]} else {})
  }

  /** A key has been seen exactly when some earlier position holds it. */
  lemma {:induction false} SeenMeansEarlier(keys: seq<string>, n: nat, key: string)
    requires n <= |keys| && key != ""
    ensures key in KeysSeen(keys, n) <==> exists j :: 0 <= j < n && keys[j] == key
  {
    if n > 0 {
      SeenMeansEarlier(keys, n - 1, key);
      if keys[n - 1] == key {
        assert 0 <= n - 1 < n && keys[n - 1] == key;
      }
    }
  }

  /** The loop over `variations || []` with the `seen` set, keeping the first variation of every colour. */
  method DedupeByColor(variations: Option<seq<JsValue>>) returns (uniqueByColor: seq<JsValue>)
    ensures var items := variations.GetOr([]); uniqueByColor == FirstOccurrences(items, Keys(items, ColorKey), |items|)
  {
    uniqueByColor := DedupeBy(variations.GetOr([]), ColorKey);
  }

  /** The dedupe loop for any key: blank keys and keys already seen are skipped. */
  method DedupeBy(items: seq<JsValue>, key: JsValue -> string) returns (uniqueByColor: seq<JsValue>)
    ensures uniqueByColor == FirstOccurrences(items, Keys(items, key), |items|)
  {
    ghost var keys := Keys(items, key);
    uniqueByColor := [];
    var seen: set<string> := {};
    var i := 0;
    while i < |items|
      invariant 0 <= i <= |items|
      invariant seen == KeysSeen(keys, i)
      invariant uniqueByColor == FirstOccurrences(items, keys, i)
    {
      var v := items[i];
      var colorKey := key(v);
      DedupeStep(items, keys, i, seen, uniqueByColor);
      if colorKey != "" && colorKey !in seen {
        seen := seen + {colorKey};
        uniqueByColor := uniqueByColor + [v];
      }
      i := i + 1;
    }
  }

  /** One more key seen: it is new exactly when it is a first occurrence. */
  lemma SeenStep(keys: seq<string>, i: nat)
    requires i < |keys|
    ensures keys[i] != "" ==> (FirstOfItsKey(keys, i) <==> keys[i] !in KeysSeen(keys, i))
  {
    if keys[i] != "" {
      SeenMeansEarlier(keys, i, keys[i]);
    }
  }

  /** One turn of the dedupe loop keeps the set of seen keys and the kept items in step with the specification. */
  lemma DedupeStep(items: seq<JsValue>, keys: seq<string>, i: nat, seen: set<string>, kept: seq<JsValue>)
    requires i < |items| == |keys|
    requires seen == KeysSeen(keys, i) && kept == FirstOccurrences(items, keys, i)
    ensures keys[i] != "" && keys[i] !in seen ==>
      seen + {keys[i]} == KeysSeen(keys, i + 1) && kept + [items[i]] == FirstOccurrences(items, keys, i + 1)
    ensures !(keys[i] != "" && keys[i] !in seen) ==>
      seen == KeysSeen(keys, i + 1) && kept == FirstOccurrences(items, keys, i + 1)
  {
    SeenStep(keys, i);
    if !FirstOfItsKey(keys, i) {
      assert kept + [] == kept;
    }
  }

  /** The input positions the kept items come from: increasing, and exactly the first occurrences. */
  function KeptIndices(keys: seq<string>, n: nat): (idx: seq<nat>)
    requires n <= |keys|
    ensures forall k :: 0 <= k < |idx| ==> idx[k] < n && FirstOfItsKey(keys, idx[k])
    ensures forall a, b :: 0 <= a < b < |idx| ==> idx[a] < idx[b]
    ensures forall i :: 0 <= i < n && FirstOfItsKey(keys, i) ==> i in idx
  {
    if n == 0 then []
    else
      var prev := KeptIndices(keys, n - 1);
      if FirstOfItsKey(keys, n - 1) then
        assert forall k :: 0 <= k < |prev| ==> (prev + [n - 1])[k] == prev[k];
        prev + [n - 1]
      else prev
  }

  /** The output is the input restricted to the first variation of each colour, in order. */
  lemma {:induction false} FirstOccurrencesAreASubsequence(items: seq<JsValue>, keys: seq<string>, n: nat)
    requires n <= |items| == |keys|
    ensures var r := FirstOccurrences(items, keys, n); var idx := KeptIndices(keys, n);
      |r| == |idx| && forall k :: 0 <= k < |r| ==> r[k] == items[idx[k]]
  {
    if n > 0 {
      FirstOccurrencesAreASubsequence(items, keys, n - 1);
      var prev := FirstOccurrences(items, keys, n - 1);
      var pidx := KeptIndices(keys, n - 1);
      if FirstOfItsKey(keys, n - 1) {
        assert forall k :: 0 <= k < |prev| ==> (prev + [items[n - 1]])[k] == prev[k];
        assert forall k :: 0 <= k < |pidx| ==> (pidx + [n - 1])[k] == pidx[k];
      }
    }
  }

  /**
   * At most one variation per colour, none with a blank colour, and every non-blank
   * colour of the input is shown.
   */
  lemma OneVariationPerColor(items: seq<JsValue>)
    ensures var keys := Keys(items, ColorKey); var r := FirstOccurrences(items, keys, |items|);
      && (forall k :: 0 <= k < |r| ==> ColorKey(r[k]) != "")
      && (forall a, b :: 0 <= a < b < |r| ==> ColorKey(r[a]) != ColorKey(r[b]))
      && (forall j :: 0 <= j < |items| && ColorKey(items[j]) != "" ==>
            exists k :: 0 <= k < |r| && ColorKey(r[k]) == ColorKey(items[j]))
  {
    var keys := Keys(items, ColorKey);
    var r := FirstOccurrences(items, keys, |items|);
    var idx := KeptIndices(keys, |items|);
    FirstOccurrencesAreASubsequence(items, keys, |items|);
    forall k | 0 <= k < |r| ensures ColorKey(r[k]) != "" {
      assert FirstOfItsKey(keys, idx[k]);
    }
    forall a, b | 0 <= a < b < |r| ensures ColorKey(r[a]) != ColorKey(r[b]) {
      assert FirstOfItsKey(keys, idx[b]);
    }
    forall j | 0 <= j < |items| && ColorKey(items[j]) != ""
      ensures exists k :: 0 <= k < |r| && ColorKey(r[k]) == ColorKey(items[j])
    {
      var i := FirstWithKey(keys, j);
      assert i in idx;
      var k :| 0 <= k < |idx| && idx[k] == i;
      assert ColorKey(r[k]) == keys[i];
    }
  }

  /** The first position with the key of position j. */
  lemma {:induction false} FirstWithKey(keys: seq<string>, j: nat) returns (i: nat)
    requires j < |keys| && keys[j] != ""
    ensures i <= j && FirstOfItsKey(keys, i) && keys[i] == keys[j]
    decreases j
  {
    if FirstOfItsKey(keys, j) {
      i := j;
    } else {
      var j' :| 0 <= j' < j && keys[j'] == keys[j];
      i := FirstWithKey(keys, j');
    }
  }

  /** COLOR_MAP. */
  const ColorMap: map<string, string> := map[
    "rojo" := "#E53935", "azul" := "#1E88E5", "verde" := "#43A047", "negro" := "#222222",
    "blanco" := "#ffffff", "gris" := "#BDBDBD", "amarillo" := "#FDD835", "naranja" := "#FB8C00",
    "morado" := "#8E24AA", "marrón" := "#8D6E63", "rosa" := "#EC407A", "celeste" := "#4FC3F7",
    "lila" := "#BA68C8", "dorado" := "#FFD700", "plateado" := "#B0BEC5"]

  /** `COLOR_MAP[colorKey] || "#eee"`. */
  function SwatchColor(key: string): (color: string)
    ensures key in ColorMap ==> color == ColorMap[key]
    ensures key !in ColorMap ==> color == "#eee"
  {
    if key in ColorMap && ColorMap[key] != "" then ColorMap[key] else "#eee"
  }

  /** Every swatch colour is a CSS hex colour. */
  lemma SwatchColorIsHex(key: string)
    ensures Colorimetry.IsHexColor(SwatchColor(key))
  {
    if key in ColorMap {
      HexOf(key);
    } else {
      assert Colorimetry.IsHexColor("#eee");
    }
  }

  lemma HexOf(key: string)
    requires key in ColorMap
    ensures Colorimetry.IsHexColor(ColorMap[key])
  {
    var h := ColorMap[key];
    assert |h| == 7 && h[0] == '#';
    forall i | 1 <= i < 7 ensures Colorimetry.IsHexDigit(h[i]) {
    }
  }

  /** `a === b` for the values an id can take; arrays and objects are never identical here. */
  predicate StrictEquals(a: JsValue, b: JsValue) {
    match a
    case JNum(x) => b.JNum? && !x.NaN? && x == b.n
    case JArr(_) => false
    case JObj(_) => false
    case _ => a == b
  }

  /** A rendered swatch: the variation, its colour and whether it is the current product. */
  datatype RenderedSwatch = RenderedSwatch(variation: JsValue, color: string, selected: bool)

  /** The swatch row. `currentId` is state, reset to `selectedId` by an effect whenever that changes. */
  class VariationPicker {
    var currentId: JsValue

    constructor (selectedId: JsValue)
      ensures currentId == selectedId
    {
      currentId := selectedId;
    }

    /** The effect on `selectedId`. */
    method SelectedIdChanged(selectedId: JsValue)
      modifies this
      ensures currentId == selectedId
    {
      currentId := selectedId;
    }

    /** One swatch per kept variation, in order; selected iff its id is `currentId`. */
    function Swatches(unique: seq<JsValue>): (r: seq<RenderedSwatch>)
      reads this
      ensures |r| == |unique|
      ensures forall k :: 0 <= k < |r| ==>
        && r[k].variation == unique[k]
        && r[k].color == SwatchColor(ColorKey(unique[k]))
        && (r[k].selected <==> StrictEquals(currentId, Get(unique[k], "id_producto_especifico")))
    {
      seq(|unique|, k requires 0 <= k < |unique| reads this =>
        RenderedSwatch(unique[k], SwatchColor(ColorKey(unique[k])),
                       StrictEquals(currentId, Get(unique[k], "id_producto_especifico"))))
    }
  }
}
