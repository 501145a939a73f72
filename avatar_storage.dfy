/**
 * The per-user avatar record store (lib/avatarStorage.ts, repeated with one difference in
 * app/api/avatar/route.ts): form-field normalisers, the compact palette encoding kept in
 * the 255-character palette columns, and the `usuario_avatar` table.
 */
module AvatarStorage {
  import opened Common
  import opened Js
  import opened AvatarTypes
  import opened Base64

  // ---------------------------------------------------------------- form fields

  /** A multipart form entry: a text value or an uploaded file. */
  datatype FormEntry = FormText(text: string) | FormFile(name: string, mimeType: string, bytes: seq<byte>)

  /** readText: a string that is not blank, trimmed; anything else is None. */
  function ReadText(value: Option<FormEntry>): (r: Option<string>)
    ensures r.None? <==> !(value.Some? && value.value.FormText?) || Trim(value.value.text) == ""
    ensures r.Some? ==> r.value == Trim(value.value.text) && r.value != "" && IsTrimmed(r.value)
  {
    match value
    case Some(FormText(s)) =>
      TrimIsTrimmed(s);
      if Trim(s) == [] then None else Some(Trim(s))
    case _ => None
  }

  /** Reading a value readText produced gives it back: readText is idempotent. */
  lemma ReadTextIdempotent(value: Option<FormEntry>)
    requires ReadText(value).Some?
    ensures ReadText(Some(FormText(ReadText(value).value))) == ReadText(value)
  {
    TrimOfTrimmed(ReadText(value).value);
  }

  /**
   * parseJson: a missing or empty entry is null, text is parsed with `parse` (JSON.parse)
   * and a parse failure is null too. A file's text is "[object File]", which is not JSON.
   */
  function ParseJson(value: Option<FormEntry>, parse: string -> Option<JsValue>): (r: JsValue)
    ensures value.None? ==> r == JNull
    ensures value.Some? && value.value.FormText? && value.value.text != "" && parse(value.value.text).Some?
            ==> r == parse(value.value.text).value
    ensures !(value.Some? && value.value.FormText? && value.value.text != "" && parse(value.value.text).Some?)
            ==> r == JNull
  {
    match value
    case Some(FormText(s)) =>
      if s == [] then JNull
      else (match parse(s) case Some(v) => v case None => JNull)
    case _ => JNull
  }

  // ---------------------------------------------------------------- input normalisers

  /**
   * normalizePhotoScores' per-entry rule: an object whose `label`, converted with String(),
   * is non-empty and whose `value`, converted with Number(), is finite.
   */
  function PhotoScoreOf(entry: JsValue): (r: Option<PhotoScore>)
    ensures r.Some? ==> r.value.title != "" && r.value.value.Fin?
    ensures r.Some? <==> entry.JObj? && "label" in entry.props && "value" in entry.props
                         && JsString(entry.props["label"]) != "" && ToNumber(entry.props["value"]).Fin?
  {
    if !entry.JObj? then None
    else
      var title := if "label" in entry.props then JsString(entry.props["label"]) else "";
      var value := if "value" in entry.props then ToNumber(entry.props["value"]) else NaN;
      if title == "" || !value.Fin? then None else Some(PhotoScore(title, value))
  }

  /** normalizePhotoScores: the entries that make a score, in order; values are not clamped. */
  function NormalizePhotoScores(raw: JsValue): (r: seq<PhotoScore>)
    ensures !raw.JArr? ==> r == []
    ensures raw.JArr? ==> |r| <= |raw.items|
    ensures forall i :: 0 <= i < |r| ==> r[i].title != "" && r[i].value.Fin?
    ensures raw.JArr? && |raw.items| == 1 ==>
      r == (match PhotoScoreOf(raw.items[0]) case Some(x) => [x] case None => [])
  {
    if !raw.JArr? then [] else KeepSome(MapScores(raw.items))
  }

  function MapScores(entries: seq<JsValue>): (r: seq<Option<PhotoScore>>)
    ensures |r| == |entries| && forall i :: 0 <= i < |entries| ==> r[i] == PhotoScoreOf(entries[i])
  {
    seq(|entries|, i requires 0 <= i < |entries| => PhotoScoreOf(entries[i]))
  }

  /**
   * Scores are read entry by entry: the scores of two arrays joined are the two score
   * lists joined. With the one-entry case, this fixes which scores are kept and in what order.
   */
  lemma NormalizePhotoScoresAppend(a: seq<JsValue>, b: seq<JsValue>)
    ensures NormalizePhotoScores(JArr(a + b)) == NormalizePhotoScores(JArr(a)) + NormalizePhotoScores(JArr(b))
  {
    assert MapScores(a + b) == MapScores(a) + MapScores(b) by {
      var l := MapScores(a + b);
      var r := MapScores(a) + MapScores(b);
      forall i | 0 <= i < |l| ensures l[i] == r[i] {
        if i < |a| { assert (a + b)[i] == a[i]; } else { assert (a + b)[i] == b[i - |a|]; }
      }
    }
    KeepSomeAppend(MapScores(a), MapScores(b));
  }

  /** `.filter(Boolean)` over optional values: the present ones, in order. */
  function KeepSome<T>(xs: seq<Option<T>>): (r: seq<T>)
    ensures |r| <= |xs|
    ensures forall i :: 0 <= i < |r| ==> Some(r[i]) in xs
    ensures (forall i :: 0 <= i < |xs| ==> xs[i].Some?) ==> |r| == |xs| && forall i :: 0 <= i < |xs| ==> xs[i] == Some(r[i])
    ensures |xs| == 1 ==> r == (match xs[0] case Some(x) => [x] case None => [])
  {
    if xs == [] then []
    else
      var rest := KeepSome(xs[1..]);
      assert forall x :: x in xs[1..] ==> x in xs;
      if xs[0].Some? then [xs[0].value] + rest else rest
  }

  /**
   * The filter works value by value: filtering a concatenation filters each part. With
   * the one-value case above, this fixes which values are kept and in which order.
   */
  lemma {:induction false} KeepSomeAppend<T>(a: seq<Option<T>>, b: seq<Option<T>>)
    ensures KeepSome(a + b) == KeepSome(a) + KeepSome(b)
  {
    if a == [] {
      assert a + b == b;
    } else {
      assert (a + b)[1..] == a[1..] + b;
      KeepSomeAppend(a[1..], b);
    }
  }

  /** A score as it travels in a form field: `{ "label": ..., "value": ... }`. */
  function ScoreToJs(s: PhotoScore): JsValue {
    JObj(map["label" := JStr(s.title), "value" := JNum(s.value)])
  }

  function ScoresToJs(xs: seq<PhotoScore>): (r: seq<JsValue>)
    ensures |r| == |xs| && forall i :: 0 <= i < |xs| ==> r[i] == ScoreToJs(xs[i])
  {
    seq(|xs|, i requires 0 <= i < |xs| => ScoreToJs(xs[i]))
  }

  /** Scores that are already well formed pass through normalizePhotoScores unchanged. */
  lemma NormalizePhotoScoresKeepsValidScores(xs: seq<PhotoScore>)
    requires forall i :: 0 <= i < |xs| ==> xs[i].title != "" && xs[i].value.Fin?
    ensures NormalizePhotoScores(JArr(ScoresToJs(xs))) == xs
  {
    var m := MapScores(ScoresToJs(xs));
    assert forall i :: 0 <= i < |xs| ==> m[i] == Some(xs[i]);
    var r := KeepSome(m);
    assert |r| == |xs|;
    assert forall i :: 0 <= i < |xs| ==> r[i] == xs[i];
  }

  /**
   * normalizeColors' per-entry rule: `name ?? n` must be a non-empty string; the hex is
   * `hex ?? h` when that is a non-empty string, else "".
   */
  function SwatchOf(entry: JsValue): (r: Option<Swatch>)
    ensures r.Some? ==> r.value.name != ""
    ensures r.Some? <==> entry.JObj? && Coalesce(Get(entry, "name"), Get(entry, "n")).JStr?
                         && Coalesce(Get(entry, "name"), Get(entry, "n")).s != ""
    ensures r.Some? ==> var h := Coalesce(Get(entry, "hex"), Get(entry, "h"));
                        r.value.hex == (if h.JStr? then h.s else "")
  {
    if !entry.JObj? then None
    else
      var name := Coalesce(Get(entry, "name"), Get(entry, "n"));
      var hex := Coalesce(Get(entry, "hex"), Get(entry, "h"));
      if !name.JStr? || name.s == "" then None
      else Some(Swatch(name.s, if hex.JStr? then hex.s else ""))
  }

  function MapSwatches(entries: seq<JsValue>): (r: seq<Option<Swatch>>)
    ensures |r| == |entries| && forall i :: 0 <= i < |entries| ==> r[i] == SwatchOf(entries[i])
  {
    seq(|entries|, i requires 0 <= i < |entries| => SwatchOf(entries[i]))
  }

  /** normalizeColors: the entries that name a colour, in order. */
  function NormalizeColors(raw: JsValue): (r: seq<Swatch>)
    ensures !raw.JArr? ==> r == []
    ensures raw.JArr? ==> |r| <= |raw.items|
    ensures forall i :: 0 <= i < |r| ==> r[i].name != ""
    ensures raw.JArr? && |raw.items| == 1 ==>
      r == (match SwatchOf(raw.items[0]) case Some(x) => [x] case None => [])
  {
    if !raw.JArr? then [] else KeepSome(MapSwatches(raw.items))
  }

  /**
   * Swatches are read entry by entry: the swatches of two arrays joined are the two
   * lists joined. With the one-entry case, this fixes which swatches are kept and in what order.
   */
  lemma NormalizeColorsAppend(a: seq<JsValue>, b: seq<JsValue>)
    ensures NormalizeColors(JArr(a + b)) == NormalizeColors(JArr(a)) + NormalizeColors(JArr(b))
  {
    assert MapSwatches(a + b) == MapSwatches(a) + MapSwatches(b) by {
      var l := MapSwatches(a + b);
      var r := MapSwatches(a) + MapSwatches(b);
      forall i | 0 <= i < |l| ensures l[i] == r[i] {
        if i < |a| { assert (a + b)[i] == a[i]; } else { assert (a + b)[i] == b[i - |a|]; }
      }
    }
    KeepSomeAppend(MapSwatches(a), MapSwatches(b));
  }

  predicate NamedSwatches(xs: seq<Swatch>) {
    forall i :: 0 <= i < |xs| ==> xs[i].name != ""
  }

  // ---------------------------------------------------------------- compact palette encoding

  function HexDigitLower(d: int): char
    requires 0 <= d < 16
  {
    if d < 10 then ('0' as int + d) as char else ('a' as int + d - 10) as char
  }

  /** One character inside a JSON.stringify string literal. */
  function JsonEscapeChar(c: char): (r: string)
    ensures |r| >= 1
  {
    if c == '"' then "\\\""
    else if c == '\\' then "\\\\"
    else if c as int == 0x08 then "\\b"
    else if c as int == 0x0C then "\\f"
    else if c == '\n' then "\\n"
    else if c == '\r' then "\\r"
    else if c == '\t' then "\\t"
    else if c as int < 0x20 then "\\u00" + [HexDigitLower(c as int / 16), HexDigitLower(c as int % 16)]
    else [c]
  }

  function JsonEscape(s: string): (r: string)
    ensures |r| >= |s|
  {
    if s == [] then "" else JsonEscapeChar(s[0]) + JsonEscape(s[1..])
  }

  /** JSON.stringify of a string. */
  function JsonQuote(s: string): (r: string)
    ensures |r| >= |s| + 2
  {
    "\"" + JsonEscape(s) + "\""
  }

  /** JSON.stringify of `{ n: name, h: hex }`. */
  function EncodeSwatch(s: Swatch): (r: string)
    ensures |r| >= |s.name|
  {
    "{\"n\":" + JsonQuote(s.name) + ",\"h\":" + JsonQuote(s.hex) + "}"
  }

  function EncodeSwatches(xs: seq<Swatch>): (r: seq<string>)
    ensures |r| == |xs| && forall i :: 0 <= i < |xs| ==> r[i] == EncodeSwatch(xs[i])
  {
    seq(|xs|, i requires 0 <= i < |xs| => EncodeSwatch(xs[i]))
  }

  /** JSON.stringify of the compact list `[{ n, h }, ...]`. */
  function EncodeCompact(xs: seq<Swatch>): (r: string)
    ensures r != [] && r[0] == '['
  {
    "[" + Join(EncodeSwatches(xs), ",") + "]"
  }

  /** The value JSON.parse gives back for an encoded compact list. */
  function CompactValue(xs: seq<Swatch>): (r: JsValue)
    ensures r.JArr? && |r.items| == |xs|
    ensures forall i :: 0 <= i < |xs| ==> r.items[i] == JObj(map["n" := JStr(xs[i].name), "h" := JStr(xs[i].hex)])
  {
    JArr(seq(|xs|, i requires 0 <= i < |xs| => JObj(map["n" := JStr(xs[i].name), "h" := JStr(xs[i].hex)])))
  }

  /** The one fact about JSON.parse the palette columns rely on: it reads back what stringify wrote. */
  ghost predicate ParsesCompactEncodings(parse: string -> Option<JsValue>) {
    forall xs :: parse(EncodeCompact(xs)) == Some(CompactValue(xs))
  }

  /** The column's size limit, in UTF-16 code units. */
  const PaletteColumnWidth: nat := 255

  /** The swatches a palette column keeps: the first 8, or the first 5 when 8 do not fit. */
  function KeptForStorage(data: seq<Swatch>): (r: seq<Swatch>)
    ensures r == Take(data, 8) || r == Take(data, 5)
    ensures |r| <= 8 && r == data[..|r|]
    ensures |data| <= 5 ==> r == data
  {
    if Utf16Length(EncodeCompact(Take(data, 8))) > PaletteColumnWidth then Take(data, 5) else Take(data, 8)
  }

  /**
   * shrinkColorsForStorage: no swatches give null; otherwise the first 8 swatches are
   * encoded, and only the first 5 when that text is longer than 255 code units. The
   * shorter text is not measured again.
   */
  function ShrinkColorsForStorage(data: seq<Swatch>): (r: Option<string>)
    ensures r.None? <==> data == []
    ensures r.Some? ==> r.value == EncodeCompact(KeptForStorage(data))
  {
    if data == [] then None
    else
      var compact := Take(data, 8);
      var json := EncodeCompact(compact);
      assert Take(compact, 5) == Take(data, 5);
      Some(if Utf16Length(json) > PaletteColumnWidth then EncodeCompact(Take(compact, 5)) else json)
  }

  /** The 5-swatch fallback can still be longer than the column: one long name suffices. */
  lemma ShrinkMayStillExceedColumn(name: string, hex: string)
    requires |name| > PaletteColumnWidth
    ensures Utf16Length(ShrinkColorsForStorage([Swatch(name, hex)]).value) > PaletteColumnWidth
  {
    var json := ShrinkColorsForStorage([Swatch(name, hex)]).value;
    assert json == "[" + EncodeSwatch(Swatch(name, hex)) + "]";
    Utf16LengthBounds(json);
  }

  /**
   * expandColorsFromStorage' per-entry rule: `n ?? ""` names the swatch and `h ?? ""` is
   * its hex; an entry without a name is dropped. A null or undefined entry throws.
   */
  function ExpandEntry(item: JsValue): (r: Result<Option<Swatch>>)
    ensures r.Err? <==> IsNullish(item)
    ensures r.Err? ==> r.error == TypeError
    ensures r.Ok? ==> (r.value.Some? <==> Get(item, "n").JStr? && Get(item, "n").s != "")
    ensures r.Ok? && r.value.Some? ==>
      var h := Get(item, "h");
      r.value.value == Swatch(Get(item, "n").s, if h.JStr? then h.s else "")
  {
    if IsNullish(item) then Err(TypeError)
    else
      var n := Coalesce(Get(item, "n"), JStr(""));
      var h := Coalesce(Get(item, "h"), JStr(""));
      if n.JStr? && n.s != "" then Ok(Some(Swatch(n.s, if h.JStr? then h.s else ""))) else Ok(None)
  }

  function ExpandEach(items: seq<JsValue>): (r: Result<seq<Swatch>>)
    ensures r.Err? <==> exists i :: 0 <= i < |items| && IsNullish(items[i])
    ensures r.Ok? ==> NamedSwatches(r.value) && |r.value| <= |items|
  {
    if items == [] then Ok([])
    else
      match ExpandEntry(items[0])
      case Err(e) => Err(e)
      case Ok(head) =>
        match ExpandEach(items[1..])
        case Err(e) =>
          assert forall i :: 0 <= i < |items| - 1 ==> items[1..][i] == items[i + 1];
          Err(e)
        case Ok(rest) =>
          assert forall i :: 0 <= i < |items| - 1 ==> items[1..][i] == items[i + 1];
          Ok(if head.Some? then [head.value] + rest else rest)
  }

  /**
   * Expanding is reading every entry and keeping the named swatches, in order: when no
   * entry throws, the result is the per-entry rule applied everywhere, filtered.
   */
  lemma {:induction false} ExpandEachKeepsNamedEntries(items: seq<JsValue>)
    ensures ExpandEach(items).Ok? ==> MapResult(ExpandEntry, items).Ok?
    ensures ExpandEach(items).Ok? ==> ExpandEach(items).value == KeepSome(MapResult(ExpandEntry, items).value)
  {
    if items != [] && ExpandEach(items).Ok? {
      ExpandEachKeepsNamedEntries(items[1..]);
      var opts := MapResult(ExpandEntry, items).value;
      assert opts[0] == ExpandEntry(items[0]).value;
      assert opts[1..] == MapResult(ExpandEntry, items[1..]).value;
    }
  }

  /**
   * expandColorsFromStorage: null, empty or unparsable text gives no swatches, and so
   * does any value whose entries cannot be read (the error is caught).
   */
  function ExpandColorsFromStorage(value: Option<string>, parse: string -> Option<JsValue>): (r: seq<Swatch>)
    ensures value.None? || value == Some("") ==> r == []
    ensures value.Some? && value.value != "" && parse(value.value).None? ==> r == []
    ensures NamedSwatches(r)
  {
    if value.None? || value.value == "" then []
    else
      match parse(value.value)
      case None => []
      case Some(parsed) =>
        if !parsed.JArr? then []
        else
          match ExpandEach(parsed.items)
          case Err(_) => []
          case Ok(xs) => xs
  }

  lemma {:induction false} ExpandEachCompact(xs: seq<Swatch>)
    requires NamedSwatches(xs)
    ensures ExpandEach(CompactValue(xs).items) == Ok(xs)
  {
    if xs != [] {
      var items := CompactValue(xs).items;
      assert items[1..] == CompactValue(xs[1..]).items;
      ExpandEachCompact(xs[1..]);
      assert ExpandEntry(items[0]) == Ok(Some(xs[0]));
      assert [xs[0]] + xs[1..] == xs;
    }
  }

  /**
   * The palette round trip: what shrink writes, expand reads back as the first 8 swatches,
   * or the first 5 when the 8-swatch text is longer than the column.
   */
  lemma ExpandShrink(xs: seq<Swatch>, parse: string -> Option<JsValue>)
    requires ParsesCompactEncodings(parse)
    requires NamedSwatches(xs)
    ensures ExpandColorsFromStorage(ShrinkColorsForStorage(xs), parse) == KeptForStorage(xs)
  {
    if xs != [] {
      var k := KeptForStorage(xs);
      assert parse(EncodeCompact(k)) == Some(CompactValue(k));
      ExpandEachCompact(k);
    }
  }

  /** Storing what was read back from storage writes the same text again. */
  lemma ShrinkExpandShrink(xs: seq<Swatch>, parse: string -> Option<JsValue>)
    requires ParsesCompactEncodings(parse)
    requires NamedSwatches(xs)
    ensures ShrinkColorsForStorage(ExpandColorsFromStorage(ShrinkColorsForStorage(xs), parse)) == ShrinkColorsForStorage(xs)
  {
    ExpandShrink(xs, parse);
    var k := KeptForStorage(xs);
    if xs != [] {
      assert Take(k, 8) == k;
      if Utf16Length(EncodeCompact(Take(xs, 8))) > PaletteColumnWidth {
        assert Take(k, 5) == k;
      } else {
        assert k == Take(xs, 8);
      }
    }
  }

  /** Well-formed swatches pass through normalizeColors unchanged, in either key spelling. */
  lemma NormalizeColorsOfCompact(xs: seq<Swatch>)
    requires NamedSwatches(xs)
    ensures NormalizeColors(CompactValue(xs)) == xs
  {
    var m := MapSwatches(CompactValue(xs).items);
    assert forall i :: 0 <= i < |xs| ==> m[i] == Some(xs[i]);
    var r := KeepSome(m);
    assert forall i :: 0 <= i < |xs| ==> r[i] == xs[i];
  }

  // ---------------------------------------------------------------- the table

  /**
   * A `usuario_avatar` row. The score column holds the JSON text of a non-empty score
   * list; the model keeps the list itself (None for SQL NULL), since finite scores survive
   * JSON text unchanged. `createDate` is milliseconds since the epoch.
   */
  datatype Row = Row(
    usuarioId: real,
    imagenAvatar: Option<string>,
    calidadFoto: Option<seq<PhotoScore>>,
    createDate: Option<int>,
    temporadaPalette: Option<string>,
    tonoPiel: Option<string>,
    subtono: Option<string>,
    coloresRecomendadosJson: Option<string>,
    coloresEvitarJson: Option<string>)

  /** upsertAvatar's payload; `createdAt` is only given to the library variant. */
  datatype Payload = Payload(
    imageUrl: Option<string>,
    photoScores: seq<PhotoScore>,
    temporada: Option<string>,
    tono: Option<string>,
    subtono: Option<string>,
    recommended: seq<Swatch>,
    avoid: seq<Swatch>,
    createdAt: Option<int>)

  /** The row the upsert writes for a payload, given the creation date the row ends up with. */
  function StoredRow(userId: real, p: Payload, createDate: Option<int>): (r: Row)
    ensures r.usuarioId == userId && r.imagenAvatar == p.imageUrl && r.createDate == createDate
    ensures r.calidadFoto.None? <==> p.photoScores == []
    ensures r.coloresRecomendadosJson == ShrinkColorsForStorage(p.recommended)
    ensures r.coloresEvitarJson == ShrinkColorsForStorage(p.avoid)
  {
    Row(userId, p.imageUrl,
        if p.photoScores == [] then None else Some(p.photoScores),
        createDate,
        p.temporada, p.tono, p.subtono,
        ShrinkColorsForStorage(p.recommended), ShrinkColorsForStorage(p.avoid))
  }

  /** mapRowToResponse: a missing row is null; palettes are expanded, an absent score column reads as []. */
  function MapRowToResponse(row: Option<Row>, parse: string -> Option<JsValue>): (r: Option<UserAvatarRecord>)
    ensures r.None? <==> row.None?
    ensures r.Some? ==> (r.value.usuarioId == row.value.usuarioId && r.value.imagenAvatar == row.value.imagenAvatar
      && r.value.createDate == row.value.createDate
      && r.value.temporadaPalette == row.value.temporadaPalette
      && r.value.tonoPiel == row.value.tonoPiel && r.value.subtono == row.value.subtono
      && r.value.calidadFoto == row.value.calidadFoto.GetOr([])
      && r.value.coloresRecomendados == ExpandColorsFromStorage(row.value.coloresRecomendadosJson, parse)
      && r.value.coloresEvitar == ExpandColorsFromStorage(row.value.coloresEvitarJson, parse))
  {
    match row
    case None => None
    case Some(w) =>
      Some(UserAvatarRecord(w.usuarioId, w.imagenAvatar, w.calidadFoto.GetOr([]), w.createDate,
                            w.temporadaPalette, w.tonoPiel, w.subtono,
                            ExpandColorsFromStorage(w.coloresRecomendadosJson, parse),
                            ExpandColorsFromStorage(w.coloresEvitarJson, parse)))
  }

  /**
   * Read after write: the record served for a stored payload carries the payload's image,
   * scores and texts, and its palettes cut to what the columns keep.
   */
  lemma ReadAfterWrite(userId: real, p: Payload, createDate: Option<int>, parse: string -> Option<JsValue>)
    requires ParsesCompactEncodings(parse)
    requires NamedSwatches(p.recommended) && NamedSwatches(p.avoid)
    ensures var r := MapRowToResponse(Some(StoredRow(userId, p, createDate)), parse).value;
      && r.imagenAvatar == p.imageUrl && r.calidadFoto == p.photoScores
      && r.temporadaPalette == p.temporada && r.tonoPiel == p.tono && r.subtono == p.subtono
      && r.coloresRecomendados == KeptForStorage(p.recommended)
      && r.coloresEvitar == KeptForStorage(p.avoid)
      && r.createDate == createDate
  {
    ExpandShrink(p.recommended, parse);
    ExpandShrink(p.avoid, parse);
  }

  /** The `usuario_avatar` table, keyed by user id. */
  class AvatarTable {
    var rows: map<real, Row>

    constructor ()
      ensures rows == map[]
    {
      rows := map[];
    }

    /** fetchAvatarRow: the row for the user, if any. */
    method FetchAvatarRow(userId: real) returns (r: Option<Row>)
      ensures r.Some? <==> userId in rows
      ensures r.Some? ==> r.value == rows[userId]
    {
      if userId in rows {
        r := Some(rows[userId]);
      } else {
        r := None;
      }
    }

    /** getUserAvatarRecord: the stored row as the API shows it. */
    method GetUserAvatarRecord(userId: real, parse: string -> Option<JsValue>) returns (r: Option<UserAvatarRecord>)
      ensures r.Some? <==> userId in rows
      ensures userId in rows ==> r == MapRowToResponse(Some(rows[userId]), parse)
    {
      var row := FetchAvatarRow(userId);
      r := MapRowToResponse(row, parse);
    }

    /**
     * upsertAvatar (lib/avatarStorage.ts): insert, or on a duplicate key overwrite every
     * column except `create_date`, which ON DUPLICATE KEY UPDATE does not list and so
     * keeps its stored value, NULL included. A new row is dated `createdAt`, or `now`.
     */
    method Upsert(userId: real, p: Payload, now: int)
      modifies this
      ensures userId in rows
      ensures userId in old(rows) ==> rows == old(rows)[userId := StoredRow(userId, p, old(rows)[userId].createDate)]
      ensures userId !in old(rows) ==> rows == old(rows)[userId := StoredRow(userId, p, Some(p.createdAt.GetOr(now)))]
      ensures rows == AfterUpsert(old(rows), userId, p, now)
    {
      var createDate := Some(p.createdAt.GetOr(now));
      if userId in rows {
        createDate := rows[userId].createDate;
      }
      rows := rows[userId := StoredRow(userId, p, createDate)];
    }

    /**
     * upsertAvatar (app/api/avatar/route.ts): the same write, except that the row is
     * dated NOW() and a duplicate key overwrites `create_date` as well.
     */
    method UpsertResettingCreateDate(userId: real, p: Payload, now: int)
      modifies this
      ensures rows == old(rows)[userId := StoredRow(userId, p, Some(now))]
    {
      rows := rows[userId := StoredRow(userId, p, Some(now))];
    }

    /** `DELETE FROM usuario_avatar WHERE usuario_id = ?`. */
    method DeleteRow(userId: real)
      modifies this
      ensures rows == old(rows) - {userId}
    {
      rows := rows - {userId};
    }
  }

  /** The table after a library upsert, as a function of the table before it. */
  function AfterUpsert(rows: map<real, Row>, userId: real, p: Payload, now: int): (r: map<real, Row>)
    ensures userId in r && r.Keys == rows.Keys + {userId}
    ensures forall u :: u in rows && u != userId ==> r[u] == rows[u]
    ensures userId in rows ==> r[userId].createDate == rows[userId].createDate
    ensures userId !in rows ==> r[userId].createDate == Some(p.createdAt.GetOr(now))
  {
    rows[userId := StoredRow(userId, p, if userId in rows then rows[userId].createDate else Some(p.createdAt.GetOr(now)))]
  }

  /**
   * The two upserts differ only in `create_date`: repeated library upserts keep the date
   * of the first, whereas the route's variant dates the row with the latest write.
   */
  lemma CreateDateDiscrepancy(rows: map<real, Row>, userId: real, p1: Payload, p2: Payload, t1: int, t2: int)
    requires userId !in rows && p1.createdAt.None? && p2.createdAt.None? && t1 != t2
    ensures AfterUpsert(AfterUpsert(rows, userId, p1, t1), userId, p2, t2)[userId].createDate == Some(t1)
    ensures rows[userId := StoredRow(userId, p1, Some(t1))][userId := StoredRow(userId, p2, Some(t2))][userId].createDate == Some(t2)
    ensures AfterUpsert(AfterUpsert(rows, userId, p1, t1), userId, p2, t2)[userId]
            == rows[userId := StoredRow(userId, p1, Some(t1))][userId := StoredRow(userId, p2, Some(t2))][userId].(createDate := Some(t1))
  {
  }
}
