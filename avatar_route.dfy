/**
 * The avatar HTTP route (app/api/avatar/route.ts): the session check, the image upload
 * with its key and URL, and the GET/POST/PUT/DELETE handlers over the `usuario_avatar`
 * table and the S3 bucket. The route's upsert dates the row with NOW() on every write.
 */
module AvatarRoute {
  import opened Common
  import opened Js
  import opened AvatarTypes
  import opened AvatarStorage
  import opened ObjectKeys

  // ---------------------------------------------------------------- session

  /**
   * requireUserId: a truthy session id converted with Number(); anything that does not
   * give a finite number is refused (the handlers answer 401).
   */
  function RequireUserId(rawId: JsValue): (r: Option<real>)
    ensures r.Some? ==> Truthy(rawId) && ToNumber(rawId) == Fin(r.value)
    ensures r.None? ==> !Truthy(rawId) || !ToNumber(rawId).Fin?
  {
    if Truthy(rawId) && ToNumber(rawId).Fin? then Some(ToNumber(rawId).r) else None
  }

  /** No session and a blank id are refused. */
  lemma MissingSessionIsRefused()
    ensures RequireUserId(JUndefined).None?
    ensures RequireUserId(JStr("")).None?
  {
  }

  /** An id that is not a number is refused. */
  lemma NonNumericIdIsRefused()
    ensures RequireUserId(JStr("abc")).None?
  {
    var t := Trim("abc");
    assert t == "abc" by {
      TrimOfTrimmed("abc");
    }
    assert DigitPrefixLength(t) == 0;
    assert ParseUnsignedDecimal(t).None?;
  }

  /**
   * The truthiness test runs before Number(): the numeric id 0 is refused, while the
   * string "0" passes and names user 0.
   */
  lemma ZeroIdDependsOnItsType()
    ensures RequireUserId(JNum(Fin(0.0))).None?
    ensures RequireUserId(JStr("0")) == Some(0.0)
  {
    assert Trim("0") == "0";
    assert DigitPrefixLength("0") == 1;
    assert DigitsValue("0") == 0;
  }

  // ---------------------------------------------------------------- requests and replies

  /** A request as the handlers see it: the Content-Type header and the form's first entry per name. */
  datatype AvatarRequest = AvatarRequest(contentType: Option<string>, form: map<string, FormEntry>)

  /** `formData.get(name)`. */
  function Field(form: map<string, FormEntry>, name: string): (r: Option<FormEntry>)
    ensures r.Some? <==> name in form
  {
    if name in form then Some(form[name]) else None
  }

  /** `(req.headers.get("content-type") || "").includes("multipart/form-data")`. */
  predicate IsMultipart(req: AvatarRequest) {
    Contains(req.contentType.GetOr(""), "multipart/form-data")
  }

  /** `formData.get("avatarImage") instanceof File`. */
  predicate HasImageFile(req: AvatarRequest) {
    "avatarImage" in req.form && req.form["avatarImage"].FormFile?
  }

  datatype ReplyBody = AvatarBody(avatar: Option<UserAvatarRecord>) | ErrorBody(error: string) | TextBody(text: string)

  /** An HTTP reply: status and body. `AvatarBody` stands for `{ ok: true, avatar }`. */
  datatype Reply = Reply(status: int, body: ReplyBody)

  const Unauthorized: Reply := Reply(401, TextBody("Unauthorized"))
  const MultipartRequired: Reply := Reply(400, ErrorBody("Content-Type multipart/form-data required"))
  const ImageFileRequired: Reply := Reply(400, ErrorBody("avatarImage file is required"))
  const ImageRequiredForUpdate: Reply := Reply(400, ErrorBody("Se requiere una imagen para actualizar"))
  const PostFailed: Reply := Reply(500, ErrorBody("Failed to guardar avatar"))
  const PutFailed: Reply := Reply(500, ErrorBody("Failed to actualizar avatar"))

  /** The upload's content type: the file's own, else image/jpeg. */
  function UploadContentType(file: FormEntry): (r: string)
    requires file.FormFile?
    ensures r != ""
    ensures file.mimeType != "" ==> r == file.mimeType
    ensures file.mimeType == "" ==> r == "image/jpeg"
  {
    if file.mimeType == "" then "image/jpeg" else file.mimeType
  }

  // ---------------------------------------------------------------- payloads

  /** What POST upserts: every field read from the form, with the new image's URL. */
  function PostPayload(form: map<string, FormEntry>, imageUrl: string, parse: string -> Option<JsValue>): (r: Payload)
    ensures r.imageUrl == Some(imageUrl) && r.createdAt.None?
    ensures r.temporada == ReadText(Field(form, "temporadaPalette"))
    ensures r.tono == ReadText(Field(form, "tonoPiel")) && r.subtono == ReadText(Field(form, "subtono"))
    ensures r.photoScores == NormalizePhotoScores(ParseJson(Field(form, "photoQuality"), parse))
    ensures r.recommended == NormalizeColors(ParseJson(Field(form, "coloresRecomendados"), parse))
    ensures r.avoid == NormalizeColors(ParseJson(Field(form, "coloresEvitar"), parse))
    ensures NamedSwatches(r.recommended) && NamedSwatches(r.avoid)
    ensures forall i :: 0 <= i < |r.photoScores| ==> r.photoScores[i].title != "" && r.photoScores[i].value.Fin?
  {
    Payload(Some(imageUrl),
            NormalizePhotoScores(ParseJson(Field(form, "photoQuality"), parse)),
            ReadText(Field(form, "temporadaPalette")),
            ReadText(Field(form, "tonoPiel")),
            ReadText(Field(form, "subtono")),
            NormalizeColors(ParseJson(Field(form, "coloresRecomendados"), parse)),
            NormalizeColors(ParseJson(Field(form, "coloresEvitar"), parse)),
            None)
  }

  /** A text column: the form's value when it has one, else the stored value, else null. */
  function TextOr(given: Option<string>, current: Option<Row>, stored: Row -> Option<string>): (r: Option<string>)
    ensures given.Some? ==> r == given
    ensures given.None? && current.Some? ==> r == stored(current.value)
    ensures given.None? && current.None? ==> r.None?
  {
    if given.Some? then given else if current.Some? then stored(current.value) else None
  }

  /** A list field: the form's list when it is non-empty, else the fallback read from the row. */
  function ListOr<T>(given: seq<T>, fallback: seq<T>): (r: seq<T>)
    ensures given != [] ==> r == given
    ensures given == [] ==> r == fallback
  {
    if |given| > 0 then given else fallback
  }

  /**
   * What PUT upserts: each field from the form when it is present and non-empty, else
   * from the stored row, else null or []. The image URL is decided by the caller.
   */
  function MergePayload(form: map<string, FormEntry>, current: Option<Row>, imageUrl: string,
                        parse: string -> Option<JsValue>): (r: Payload)
    ensures r.imageUrl == Some(imageUrl) && r.createdAt.None?
    ensures ReadText(Field(form, "temporadaPalette")).Some? ==> r.temporada == ReadText(Field(form, "temporadaPalette"))
    ensures ReadText(Field(form, "temporadaPalette")).None? ==>
              r.temporada == (if current.Some? then current.value.temporadaPalette else None)
    ensures ReadText(Field(form, "tonoPiel")).Some? ==> r.tono == ReadText(Field(form, "tonoPiel"))
    ensures ReadText(Field(form, "tonoPiel")).None? ==>
              r.tono == (if current.Some? then current.value.tonoPiel else None)
    ensures ReadText(Field(form, "subtono")).Some? ==> r.subtono == ReadText(Field(form, "subtono"))
    ensures ReadText(Field(form, "subtono")).None? ==>
              r.subtono == (if current.Some? then current.value.subtono else None)
    ensures var sent := NormalizePhotoScores(ParseJson(Field(form, "photoQuality"), parse));
            r.photoScores == (if sent != [] then sent
                              else if current.Some? then current.value.calidadFoto.GetOr([]) else [])
    ensures var sent := NormalizeColors(ParseJson(Field(form, "coloresRecomendados"), parse));
            r.recommended == (if sent != [] then sent
                              else ExpandColorsFromStorage(if current.Some? then current.value.coloresRecomendadosJson else None, parse))
    ensures var sent := NormalizeColors(ParseJson(Field(form, "coloresEvitar"), parse));
            r.avoid == (if sent != [] then sent
                        else ExpandColorsFromStorage(if current.Some? then current.value.coloresEvitarJson else None, parse))
    ensures NamedSwatches(r.recommended) && NamedSwatches(r.avoid)
  {
    var post := PostPayload(form, imageUrl, parse);
    var storedScores := if current.Some? then current.value.calidadFoto.GetOr([]) else [];
    var storedRecommended := ExpandColorsFromStorage(if current.Some? then current.value.coloresRecomendadosJson else None, parse);
    var storedAvoid := ExpandColorsFromStorage(if current.Some? then current.value.coloresEvitarJson else None, parse);
    Payload(Some(imageUrl),
            ListOr(post.photoScores, storedScores),
            TextOr(post.temporada, current, (w: Row) => w.temporadaPalette),
            TextOr(post.tono, current, (w: Row) => w.tonoPiel),
            TextOr(post.subtono, current, (w: Row) => w.subtono),
            ListOr(post.recommended, storedRecommended),
            ListOr(post.avoid, storedAvoid),
            None)
  }

  /** With no stored row, PUT writes exactly what POST would write for the same form and image. */
  lemma PutWithoutRowIsPost(form: map<string, FormEntry>, imageUrl: string, parse: string -> Option<JsValue>)
    ensures MergePayload(form, None, imageUrl, parse) == PostPayload(form, imageUrl, parse)
  {
  }

  /**
   * A PUT whose form carries no fields rewrites a stored row unchanged: the scores, texts
   * and palette columns read back from the row encode to the same column values. Only
   * `create_date` moves to the time of the write.
   */
  lemma PutWithoutFieldsKeepsRow(userId: real, p: Payload, t: int, now: int, parse: string -> Option<JsValue>)
    requires ParsesCompactEncodings(parse)
    requires NamedSwatches(p.recommended) && NamedSwatches(p.avoid)
    requires p.imageUrl.Some?
    ensures var row := StoredRow(userId, p, Some(t));
            StoredRow(userId, MergePayload(map[], Some(row), p.imageUrl.value, parse), Some(now)) == row.(createDate := Some(now))
  {
    var row := StoredRow(userId, p, Some(t));
    var q := MergePayload(map[], Some(row), p.imageUrl.value, parse);
    assert ParseJson(Field(map[], "photoQuality"), parse) == JNull;
    assert ParseJson(Field(map[], "coloresRecomendados"), parse) == JNull;
    assert ParseJson(Field(map[], "coloresEvitar"), parse) == JNull;
    ShrinkExpandShrink(p.recommended, parse);
    ShrinkExpandShrink(p.avoid, parse);
    assert q.photoScores == row.calidadFoto.GetOr([]);
    assert ShrinkColorsForStorage(q.recommended) == row.coloresRecomendadosJson;
    assert ShrinkColorsForStorage(q.avoid) == row.coloresEvitarJson;
  }

  /** `current?.imagen_avatar ?? null`. */
  function ExistingImage(rows: map<real, Row>, userId: real): (r: Option<string>)
    ensures r.Some? ==> userId in rows && rows[userId].imagenAvatar == r
  {
    if userId in rows then rows[userId].imagenAvatar else None
  }

  /** The stored row of a user, if any. */
  function RowOf(rows: map<real, Row>, userId: real): (r: Option<Row>)
    ensures r.Some? <==> userId in rows
    ensures r.Some? ==> r.value == rows[userId]
  {
    if userId in rows then Some(rows[userId]) else None
  }

  // ---------------------------------------------------------------- the handlers

  /**
   * The route with its table, its bucket and the AWS_S3_BUCKET / AWS_REGION settings.
   * `stem` stands for the `${Date.now()}_${random}` part of a new key, `now` for NOW(),
   * and `uploadOk` / `deleteOk` for the outcome of the S3 calls.
   */
  class AvatarApi {
    const table: AvatarTable
    const store: ObjectStore
    const bucket: Option<string>
    const region: Option<string>

    constructor (table: AvatarTable, store: ObjectStore, bucket: Option<string>, region: Option<string>)
      ensures this.table == table && this.store == store && this.bucket == bucket && this.region == region
    {
      this.table := table;
      this.store := store;
      this.bucket := bucket;
      this.region := region;
    }

    /** `AWS_BUCKET && AWS_REGION`: both set and non-empty. */
    predicate S3Configured() {
      bucket.Some? && bucket.value != "" && region.Some? && region.value != ""
    }

    /**
     * uploadAvatarImage: the object is written under `avatars/{userId}_{stem}.{ext}` first,
     * and only then are the bucket settings checked, so an upload that went through with
     * a setting missing (the region: without a bucket the S3 helper itself refuses, which
     * `uploadOk` stands for) leaves the object behind and fails.
     */
    method UploadAvatarImage(file: FormEntry, userId: real, stem: string, uploadOk: bool) returns (r: Result<string>)
      requires file.FormFile?
      modifies store
      ensures uploadOk ==> var key := AvatarKey(userId, stem, file.name);
        && store.objects == old(store.objects)[key := file.bytes]
        && store.contentTypes == old(store.contentTypes)[key := UploadContentType(file)]
      ensures !uploadOk ==> r == Err(StorageFailure) && unchanged(store)
      ensures uploadOk && !S3Configured() ==> r == Err(S3EnvMissing)
      ensures uploadOk && S3Configured() ==> r == Ok(S3Url(bucket.value, region.value, AvatarKey(userId, stem, file.name)))
    {
      var key := AvatarKey(userId, stem, file.name);
      var ok := store.Upload(key, file.bytes, UploadContentType(file), uploadOk);
      if !ok {
        return Err(StorageFailure);
      }
      if !S3Configured() {
        return Err(S3EnvMissing);
      }
      r := Ok(S3Url(bucket.value, region.value, key));
    }

    /** GET: the caller's record, or null when there is none. Nothing changes. */
    method Get(rawId: JsValue, parse: string -> Option<JsValue>) returns (reply: Reply)
      ensures RequireUserId(rawId).None? ==> reply == Unauthorized
      ensures RequireUserId(rawId).Some? ==>
                reply == Reply(200, AvatarBody(MapRowToResponse(RowOf(table.rows, RequireUserId(rawId).value), parse)))
    {
      var id := RequireUserId(rawId);
      if id.None? {
        return Unauthorized;
      }
      var row := table.FetchAvatarRow(id.value);
      reply := Reply(200, AvatarBody(MapRowToResponse(row, parse)));
    }

    /**
     * POST: a multipart form with an `avatarImage` file is required; the image is
     * uploaded, the form fields are normalised and upserted, and the stored record is
     * returned. A refusal writes nothing.
     */
    method Post(rawId: JsValue, req: AvatarRequest, stem: string, uploadOk: bool, now: int,
                parse: string -> Option<JsValue>) returns (reply: Reply)
      modifies table, store
      ensures RequireUserId(rawId).None? ==> reply == Unauthorized && unchanged(table) && unchanged(store)
      ensures RequireUserId(rawId).Some? && !IsMultipart(req) ==>
                reply == MultipartRequired && unchanged(table) && unchanged(store)
      ensures RequireUserId(rawId).Some? && IsMultipart(req) && !HasImageFile(req) ==>
                reply == ImageFileRequired && unchanged(table) && unchanged(store)
      ensures RequireUserId(rawId).Some? && IsMultipart(req) && HasImageFile(req) && !uploadOk ==>
                reply == PostFailed && unchanged(table) && unchanged(store)
      ensures RequireUserId(rawId).Some? && IsMultipart(req) && HasImageFile(req) && uploadOk && !S3Configured() ==>
                reply == PostFailed && unchanged(table)
      ensures RequireUserId(rawId).Some? && IsMultipart(req) && HasImageFile(req) && uploadOk ==>
                var file := req.form["avatarImage"];
                var key := AvatarKey(RequireUserId(rawId).value, stem, file.name);
                && store.objects == old(store.objects)[key := file.bytes]
                && store.contentTypes == old(store.contentTypes)[key := UploadContentType(file)]
      ensures RequireUserId(rawId).Some? && IsMultipart(req) && HasImageFile(req) && uploadOk && S3Configured() ==>
                var id := RequireUserId(rawId).value;
                var url := S3Url(bucket.value, region.value, AvatarKey(id, stem, req.form["avatarImage"].name));
                var row := StoredRow(id, PostPayload(req.form, url, parse), Some(now));
                && table.rows == old(table.rows)[id := row]
                && reply == Reply(200, AvatarBody(MapRowToResponse(Some(row), parse)))
    {
      var id := RequireUserId(rawId);
      if id.None? {
        return Unauthorized;
      }
      if !IsMultipart(req) {
        return MultipartRequired;
      }
      if !HasImageFile(req) {
        return ImageFileRequired;
      }
      var uploaded := UploadAvatarImage(req.form["avatarImage"], id.value, stem, uploadOk);
      if uploaded.Err? {
        return PostFailed;
      }
      table.UpsertResettingCreateDate(id.value, PostPayload(req.form, uploaded.value, parse), now);
      var row := table.FetchAvatarRow(id.value);
      reply := Reply(200, AvatarBody(MapRowToResponse(row, parse)));
    }

    /**
     * PUT: the image is the new upload when a file is sent, else the stored one, and the
     * request is refused when there is neither; every other field falls back to the
     * stored row (MergePayload).
     */
    method Put(rawId: JsValue, req: AvatarRequest, stem: string, uploadOk: bool, now: int,
               parse: string -> Option<JsValue>) returns (reply: Reply)
      modifies table, store
      ensures RequireUserId(rawId).None? ==> reply == Unauthorized && unchanged(table) && unchanged(store)
      ensures RequireUserId(rawId).Some? && !IsMultipart(req) ==>
                reply == MultipartRequired && unchanged(table) && unchanged(store)
      ensures RequireUserId(rawId).Some? && IsMultipart(req) && HasImageFile(req) && !uploadOk ==>
                reply == PutFailed && unchanged(table) && unchanged(store)
      ensures RequireUserId(rawId).Some? && IsMultipart(req) && HasImageFile(req) && uploadOk && !S3Configured() ==>
                reply == PutFailed && unchanged(table)
      ensures RequireUserId(rawId).Some? && IsMultipart(req) && HasImageFile(req) && uploadOk ==>
                var file := req.form["avatarImage"];
                var key := AvatarKey(RequireUserId(rawId).value, stem, file.name);
                && store.objects == old(store.objects)[key := file.bytes]
                && store.contentTypes == old(store.contentTypes)[key := UploadContentType(file)]
      ensures RequireUserId(rawId).Some? && IsMultipart(req) && HasImageFile(req) && uploadOk && S3Configured() ==>
                var id := RequireUserId(rawId).value;
                var url := S3Url(bucket.value, region.value, AvatarKey(id, stem, req.form["avatarImage"].name));
                var row := StoredRow(id, MergePayload(req.form, RowOf(old(table.rows), id), url, parse), Some(now));
                && table.rows == old(table.rows)[id := row]
                && reply == Reply(200, AvatarBody(MapRowToResponse(Some(row), parse)))
      ensures RequireUserId(rawId).Some? && IsMultipart(req) && !HasImageFile(req) ==>
                var id := RequireUserId(rawId).value;
                var existing := ExistingImage(old(table.rows), id);
                && unchanged(store)
                && (existing.None? || existing.value == "" ==> reply == ImageRequiredForUpdate && unchanged(table))
                && (existing.Some? && existing.value != "" ==>
                      var row := StoredRow(id, MergePayload(req.form, RowOf(old(table.rows), id), existing.value, parse), Some(now));
                      && table.rows == old(table.rows)[id := row]
                      && reply == Reply(200, AvatarBody(MapRowToResponse(Some(row), parse))))
    {
      var id := RequireUserId(rawId);
      if id.None? {
        return Unauthorized;
      }
      if !IsMultipart(req) {
        return MultipartRequired;
      }
      if HasImageFile(req) {
        reply := PutWithFile(id.value, req.form, stem, uploadOk, now, parse);
      } else {
        reply := PutKeepingImage(id.value, req.form, now, parse);
      }
    }

    /** PUT with an `avatarImage` file: the new upload's URL replaces the stored image. */
    method PutWithFile(id: real, form: map<string, FormEntry>, stem: string, uploadOk: bool, now: int,
                       parse: string -> Option<JsValue>) returns (reply: Reply)
      requires "avatarImage" in form && form["avatarImage"].FormFile?
      modifies table, store
      ensures !uploadOk ==> reply == PutFailed && unchanged(table) && unchanged(store)
      ensures uploadOk && !S3Configured() ==> reply == PutFailed && unchanged(table)
      ensures uploadOk ==>
                var key := AvatarKey(id, stem, form["avatarImage"].name);
                && store.objects == old(store.objects)[key := form["avatarImage"].bytes]
                && store.contentTypes == old(store.contentTypes)[key := UploadContentType(form["avatarImage"])]
      ensures uploadOk && S3Configured() ==>
                var url := S3Url(bucket.value, region.value, AvatarKey(id, stem, form["avatarImage"].name));
                var row := StoredRow(id, MergePayload(form, RowOf(old(table.rows), id), url, parse), Some(now));
                && table.rows == old(table.rows)[id := row]
                && reply == Reply(200, AvatarBody(MapRowToResponse(Some(row), parse)))
    {
      var current := table.FetchAvatarRow(id);
      var uploaded := UploadAvatarImage(form["avatarImage"], id, stem, uploadOk);
      if uploaded.Err? {
        return PutFailed;
      }
      table.UpsertResettingCreateDate(id, MergePayload(form, current, uploaded.value, parse), now);
      var row := table.FetchAvatarRow(id);
      reply := Reply(200, AvatarBody(MapRowToResponse(row, parse)));
    }

    /** PUT without a file: the stored image is kept, and without one the request is refused. */
    method PutKeepingImage(id: real, form: map<string, FormEntry>, now: int,
                           parse: string -> Option<JsValue>) returns (reply: Reply)
      modifies table
      ensures var existing := ExistingImage(old(table.rows), id);
              && (existing.None? || existing.value == "" ==> reply == ImageRequiredForUpdate && unchanged(table))
              && (existing.Some? && existing.value != "" ==>
                    var row := StoredRow(id, MergePayload(form, RowOf(old(table.rows), id), existing.value, parse), Some(now));
                    && table.rows == old(table.rows)[id := row]
                    && reply == Reply(200, AvatarBody(MapRowToResponse(Some(row), parse))))
    {
      var current := table.FetchAvatarRow(id);
      var imageUrl := if current.Some? then current.value.imagenAvatar else None;
      if imageUrl.None? || imageUrl.value == "" {
        return ImageRequiredForUpdate;
      }
      table.UpsertResettingCreateDate(id, MergePayload(form, current, imageUrl.value, parse), now);
      var row := table.FetchAvatarRow(id);
      reply := Reply(200, AvatarBody(MapRowToResponse(row, parse)));
    }

    /**
     * DELETE: without a stored row nothing is touched. Otherwise the image object is
     * deleted when a key can be read from its URL, a failure there is ignored, and the
     * row is always removed.
     */
    method Delete(rawId: JsValue, deleteOk: bool) returns (reply: Reply)
      modifies table, store
      ensures RequireUserId(rawId).None? ==> reply == Unauthorized && unchanged(table) && unchanged(store)
      ensures RequireUserId(rawId).Some? ==> reply == Reply(200, AvatarBody(None))
      ensures RequireUserId(rawId).Some? && RequireUserId(rawId).value !in old(table.rows) ==>
                unchanged(table) && unchanged(store)
      ensures RequireUserId(rawId).Some? && RequireUserId(rawId).value in old(table.rows) ==>
                var id := RequireUserId(rawId).value;
                var key := ExtractKeyFromUrl(old(table.rows)[id].imagenAvatar);
                && table.rows == old(table.rows) - {id}
                && (key.Some? && deleteOk ==>
                      store.objects == old(store.objects) - {key.value}
                      && store.contentTypes == old(store.contentTypes) - {key.value})
                && (key.None? || !deleteOk ==> unchanged(store))
    {
      var id := RequireUserId(rawId);
      if id.None? {
        return Unauthorized;
      }
      var current := table.FetchAvatarRow(id.value);
      if current.None? {
        return Reply(200, AvatarBody(None));
      }
      var key := ExtractKeyFromUrl(current.value.imagenAvatar);
      if key.Some? {
        var _ := store.Delete(key.value, deleteOk);
      }
      table.DeleteRow(id.value);
      reply := Reply(200, AvatarBody(None));
    }
  }
}
