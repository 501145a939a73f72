# Avatar and virtual try-on pipeline of the E-cloudi store, in Dafny

This project models the avatar and try-on pipeline of the E-cloudi storefront (a Next.js
shop written in TypeScript) and proves properties of that model. It covers:

- **Photo validation.** The vision model is asked whether a profile photo is usable, and
  its untrusted answer is normalised into a verdict, a confidence, reasons, tips and
  quality scores (`PhotoValidator`).
- **Vision client.** Configuration, the image reference sent with a prompt, the
  chat-completions call, and how the JSON answer is extracted from the reply
  (`VisionClient`).
- **Colour analysis.** The colour analysis of an avatar photo, with its hex-colour filter
  and its fallback palettes (`Colorimetry`).
- **Avatar record store.** The per-user record in the `usuario_avatar` table
  (`AvatarStorage`). The store keeps palettes in a compact JSON encoding that fits a
  255-character column.
- **Avatar route.** The `/api/avatar` handlers: GET, POST, PUT and DELETE over that table
  and the S3 bucket (`AvatarRoute`). Object keys and URLs are built in `ObjectKeys`.
- **Try-on generation.** The `/api/tryon` route: two views generated one after the other,
  up to three attempts per view, a wait after a rate limit, and a pause between the views
  (`TryOn`).
- **Uploads.** The `/api/uploads` route: a multipart loop, and a JSON loop that fetches
  remote images with retries and exponential back-off (`Uploads`).
- **Avatar wizard.** The four-step state machine on the profile page, with its photo
  validation that can be superseded and its object-URL hygiene (`AvatarWizard`).
- **Display helpers.** The colour de-duplication of product variations
  (`ProductVariations`) and the colour-analysis panel (`ColorimetryPanel`).

Supporting modules:

- `Js` models the part of JavaScript's value semantics the code relies on: values,
  truthiness, `?.`, `??`, `trim`, `Number()`, `String()` and UTF-16 length.
- `Base64` is the RFC 4648 (section 4) alphabet with its round trip.
- `AvatarTypes` holds the record types and the default scores and palettes.
- `Common` holds `Option`, `Result` and the JavaScript errors that matter.

The network, the database, the S3 bucket, `JSON.parse`, the clock and random key stems are
parameters. Sleeps are recorded as lists of delays in milliseconds.

Code that changes state is modelled as classes with `modifies` clauses:

- the `usuario_avatar` and `prueba_virtual` tables;
- the bucket;
- the wizard;
- the variation picker.

Loops are modelled as methods with invariants, each proved equal to a recursive
specification function. Those loops are the retry loops, the batch loops, the stream scan,
the view loop and the de-duplication loop. Pure helpers are functions.

`app/api/avatar/route.ts` repeats the helpers of `lib/avatarStorage.ts` word for word
(lines 56-128 and 190-206). It has one exception, its upsert (lines 146-188), which
overwrites `create_date` on a conflict. Both upserts are modelled
(`AvatarTable.Upsert` and `AvatarTable.UpsertResettingCreateDate`), and
`CreateDateDiscrepancy` states how they differ.

## Model

| member | source | states |
|---|---|---|
| VisionClient.Setting | lib/azureAiClient.ts:19-24 | An unset variable reads as ""; a set one is read trimmed |
| VisionClient.StripTrailingSlash | lib/azureAiClient.ts:32 | Removes exactly one trailing '/', and only when there is one |
| VisionClient.GetAzureAiConfig | lib/azureAiClient.ts:18-41 | Fails iff the trimmed key or the trimmed endpoint is empty. The deployment defaults to gpt-5-nano and the API version to 2024-12-01-preview. The endpoint is the base without its trailing '/', followed by the chat-completions path |
| VisionClient.TrailingSlashIrrelevant | lib/azureAiClient.ts:32-33 | A base endpoint configured with or without a trailing '/' gives the same configuration |
| VisionClient.BuildHeaders | lib/azureAiClient.ts:43-51 | The headers carry the JSON content type and the api-key |
| VisionClient.PostAzureChatCompletion | lib/azureAiClient.ts:53-69 | The configuration is read before anything is sent. The request goes to the configured endpoint with the key. A non-2xx answer is an error carrying the status and the body text; a 2xx answer is its parsed body |
| VisionClient.ConfigCheckedBeforeRequest | lib/azureAiClient.ts:53-55 | Without a configuration the call fails, and the network is never consulted: the outcome is the same for every network |
| VisionClient.FileMime | lib/azureAiClient.ts:78 | A file's own MIME type when it has one, image/jpeg when it has none |
| VisionClient.ResolveImageReference | lib/azureAiClient.ts:71-84 | A non-empty URL wins, even when a file is also given. Otherwise a file becomes a `data:{mime};base64,` URL whose payload decodes back to the file's bytes. Neither is an error |
| VisionClient.FirstTextChunkIndex | lib/azureAiClient.ts:114 | The position where `find` stops: the first chunk typed "text", after none that is |
| VisionClient.ExtractMessageText | lib/azureAiClient.ts:105-127 | No message gives no text. String content is the text itself. Other non-array content gives no text, and so does array content with no text chunk |
| VisionClient.OnlyFirstTextChunkCounts | lib/azureAiClient.ts:113-123 | For array content, only the first text chunk decides the text; later chunks never matter |
| VisionClient.ReplyText | lib/azureAiClient.ts:91-100 | The first choice's message text, only when it is non-empty |
| VisionClient.ExtractJsonFromResponses | lib/azureAiClient.ts:86-103 | An empty payload fails. A payload without a message text comes back unchanged. Otherwise the text is parsed, and a parse failure is an error |
| VisionClient.ExtractFromStringContent | lib/azureAiClient.ts:91-102 | A first choice whose content is a JSON string yields that string parsed |
| VisionClient.ExtractWithoutChoices | lib/azureAiClient.ts:91-95 | A payload without `choices` is returned as it is |
| Base64.Encode | lib/azureAiClient.ts:79 | The base64 text of a byte string: four characters per started group of three bytes, all from the alphabet or '=' |
| Base64.DecodeEncode | lib/azureAiClient.ts:79-80 | Every byte string survives an encode/decode round trip |
| PhotoValidator.Clamp | lib/avatarPhotoValidator.ts:156-158 | NaN stays NaN. Everything else lands in [lo, hi]: unchanged inside, the nearer bound outside |
| PhotoValidator.Round | lib/avatarPhotoValidator.ts:152 | Math.round gives the integer within half a unit, with halves rounded up. NaN and the infinities are unchanged |
| PhotoValidator.RoundClampInRange | lib/avatarPhotoValidator.ts:152 | Rounding after clamping to integer bounds stays inside those bounds |
| PhotoValidator.RoundOfIntegral | lib/avatarPhotoValidator.ts:152 | Rounding an integer gives it back |
| PhotoValidator.ScoreValue | lib/avatarPhotoValidator.ts:152 | A score value is NaN or an integer in [0, 100]. An in-range integer is kept, and a missing value is 0 |
| PhotoValidator.TrimEntry | lib/avatarPhotoValidator.ts:140 | A string entry is trimmed and a nullish one becomes "". Any other entry throws a TypeError |
| PhotoValidator.NonEmpty | lib/avatarPhotoValidator.ts:141 | A one-entry list is kept iff its entry is non-empty; with NonEmptyAppend this fixes the kept entries and their order. A list without blanks is kept whole |
| PhotoValidator.NonEmptyAppend | lib/avatarPhotoValidator.ts:141 | The filter of a concatenation is the concatenation of the filters, so it works entry by entry |
| PhotoValidator.TrimmedTexts | lib/avatarPhotoValidator.ts:139-140 | One text per entry, in place: a string entry trimmed, anything else "" |
| PhotoValidator.SanitizeList | lib/avatarPhotoValidator.ts:137-143 | A non-array gives []. It fails, with a TypeError, iff an entry is neither a string nor nullish. Otherwise the result is the first 6 of the non-empty trimmed texts of the entries, in order |
| PhotoValidator.KeptEntriesAreTrimmedItems | lib/avatarPhotoValidator.ts:138-142 | Every kept entry is the non-empty trimmed text of one of the given strings |
| PhotoValidator.SanitizeListIdempotent | lib/avatarPhotoValidator.ts:137-143 | Sanitising a sanitised list changes nothing |
| PhotoValidator.SanitizeCleanList | lib/avatarPhotoValidator.ts:137-143 | At most six non-empty trimmed strings come back unchanged, in order |
| PhotoValidator.TrimEachOfTrimmed | lib/avatarPhotoValidator.ts:139-140 | Trimming strings that are already trimmed gives them back |
| PhotoValidator.NormalizeScore | lib/avatarPhotoValidator.ts:150-153 | Throws a TypeError iff the label is neither a string nor nullish. Otherwise the title is ScoreTitle of the label and the value is ScoreValue of the raw value |
| PhotoValidator.ScoreTitle | lib/avatarPhotoValidator.ts:151 | A non-blank string label is trimmed; a nullish or blank one becomes "Indicador". The title is never empty and is trimmed |
| PhotoValidator.NormalizeScores | lib/avatarPhotoValidator.ts:145-154 | No array or an empty one gives no scores. It fails, with a TypeError, iff some entry's label throws. Otherwise the i-th score is NormalizeScore of the i-th entry |
| PhotoValidator.NormalizeValidationResult | lib/avatarPhotoValidator.ts:121-135 | Null throws. The verdict is Approved iff the raw verdict is exactly "approved". The confidence is 0.5 when absent, otherwise the clamped Number() of it. A rejection carries the sanitised reasons and tips, an approval none. The scores are NormalizeScores of photoScores, and a non-null reply fails iff one of the three lists fails |
| PhotoValidator.ApprovalHasNoReasons | lib/avatarPhotoValidator.ts:124-132 | An "approved" reply yields an approval with no reasons, whatever reasons it lists |
| PhotoValidator.MetaLines | lib/avatarPhotoValidator.ts:115 | One `- key: value` line per metadata entry, in order |
| PhotoValidator.BuildUserPrompt | lib/avatarPhotoValidator.ts:109-119 | No metadata, or empty metadata, gives the base prompt. Otherwise the prompt is the base prompt, the context header, and the metadata lines joined with newlines |
| PhotoValidator.JoinSplits | lib/avatarPhotoValidator.ts:115-118 | Joining splits at any inner position around one separator |
| PhotoValidator.JoinContainsPart | lib/avatarPhotoValidator.ts:115-118 | Every joined line occurs in the joined text |
| PhotoValidator.ValidateAvatarPhoto | lib/avatarPhotoValidator.ts:83-107 | A missing image fails with "image required" before anything else, and a missing configuration fails next. Then an upstream error propagates, a failed extraction propagates, and otherwise the result is NormalizeValidationResult of the extracted JSON |
| Colorimetry.NormalizeHex | lib/colorimetriaModel.ts:157-163 | The result is "" or a `#rgb` / `#rrggbb` colour. It is the trimmed input, or that input with a '#' added, and a valid colour is kept as it is |
| Colorimetry.NormalizeHexIdempotent | lib/colorimetriaModel.ts:157-163 | Normalising a normalised colour changes nothing |
| Colorimetry.NormalizeHexAddsHash | lib/colorimetriaModel.ts:159-162 | Six hex digits without '#' are accepted, and a '#' is prepended |
| Colorimetry.CleanText | lib/colorimetriaModel.ts:138-142 | Null for a non-string or a blank string; otherwise the trimmed text |
| Colorimetry.NormalizeModelColor | lib/colorimetriaModel.ts:149-152 | Throws a TypeError iff the name is neither a string nor nullish. Otherwise the name is ModelColorName of the raw name and the hex is NormalizeHex of the raw hex |
| Colorimetry.ModelColorName | lib/colorimetriaModel.ts:150 | A non-blank string name is trimmed; a nullish or blank one becomes "Color". The name is never empty |
| Colorimetry.KeepColored | lib/colorimetriaModel.ts:153-154 | A one-swatch list is kept iff its hex is non-empty; with KeepColoredAppend this fixes the kept swatches and their order. Nothing is dropped when every hex is valid |
| Colorimetry.KeepColoredAppend | lib/colorimetriaModel.ts:153-154 | The filter of a concatenation is the concatenation of the filters |
| Colorimetry.NormalizeModelColors | lib/colorimetriaModel.ts:144-155 | A non-array gives null. It fails, with a TypeError, iff some entry throws. Otherwise the result is the colored entries, each normalised, in order, and null when none is left |
| Colorimetry.KeptColorsAreValid | lib/colorimetriaModel.ts:144-155 | Every surviving swatch has a name and a valid hex colour |
| Colorimetry.UsableColorsAllKept | lib/colorimetriaModel.ts:144-155 | When every entry has a usable hex, none is dropped |
| Colorimetry.NoValidColorsMeansEmpty | lib/colorimetriaModel.ts:144-155 | When no entry has a usable hex, nothing survives |
| Colorimetry.FallbacksAreValid | lib/colorimetriaModel.ts:17-28 | The fallback palettes (4 and 3 swatches) are themselves valid |
| Colorimetry.NormalizeColorimetria | lib/colorimetriaModel.ts:120-136 | A falsy reply gives null. Otherwise the texts are CleanText of the raw texts, a given palette is that palette and a missing one its fallback, and it fails, with a TypeError, iff one of the palettes throws |
| Colorimetry.UnusableRecommendedFallsBack | lib/colorimetriaModel.ts:131-134 | A recommended palette without a single usable colour is replaced by the 4-swatch fallback |
| Colorimetry.FetchColorimetriaForAvatar | lib/colorimetriaModel.ts:70-106 | Every failure gives null instead of an error: no image, no configuration, upstream errors, failed extraction, a normaliser that throws. Otherwise the result is NormalizeColorimetria of the extracted JSON |
| AvatarStorage.ReadText | lib/avatarStorage.ts:39-44 | Null unless the entry is text that is non-empty once trimmed; otherwise the trimmed text |
| AvatarStorage.ReadTextIdempotent | lib/avatarStorage.ts:39-44 | Reading what readText produced gives it back |
| AvatarStorage.ParseJson | lib/avatarStorage.ts:46-56 | Parsed text when the entry is non-empty text that parses; null in every other case |
| AvatarStorage.PhotoScoreOf | lib/avatarStorage.ts:61-66 | An entry makes a score iff it has a label whose String() is non-empty and a value whose Number() is finite |
| AvatarStorage.NormalizePhotoScores | lib/avatarStorage.ts:58-69 | A non-array gives []. A one-entry array gives its score when the entry makes one, else []; with NormalizePhotoScoresAppend this fixes the kept scores and their order. No clamping |
| AvatarStorage.NormalizePhotoScoresAppend | lib/avatarStorage.ts:58-69 | The scores of a concatenation are the concatenation of the scores |
| AvatarStorage.KeepSome | lib/avatarStorage.ts:68 | `filter(Boolean)` keeps a single present value and drops a single absent one, and drops nothing when all are present |
| AvatarStorage.KeepSomeAppend | lib/avatarStorage.ts:68 | Filtering a concatenation filters each part, so present values are kept in order |
| AvatarStorage.NormalizePhotoScoresKeepsValidScores | lib/avatarStorage.ts:58-69 | Well-formed scores pass through unchanged |
| AvatarStorage.SwatchOf | lib/avatarStorage.ts:74-80 | An entry makes a swatch iff `name ?? n` is a non-empty string. The hex is `hex ?? h` when that is a string, else "" |
| AvatarStorage.NormalizeColors | lib/avatarStorage.ts:71-83 | A non-array gives []. A one-entry array gives its swatch when it makes one, else []; with NormalizeColorsAppend this fixes the kept swatches and their order |
| AvatarStorage.NormalizeColorsAppend | lib/avatarStorage.ts:71-83 | The swatches of a concatenation are the concatenation of the swatches |
| AvatarStorage.NormalizeColorsOfCompact | lib/avatarStorage.ts:71-83 | Named swatches in the compact `{n, h}` spelling normalise to themselves |
| AvatarStorage.EncodeCompact | lib/avatarStorage.ts:87-92 | The JSON text of the compact list is a non-empty array literal |
| AvatarStorage.KeptForStorage | lib/avatarStorage.ts:87-93 | A column keeps the first 8 swatches, or the first 5; up to 5 swatches are always all kept |
| AvatarStorage.ShrinkColorsForStorage | lib/avatarStorage.ts:85-95 | Null iff there are no swatches. Otherwise the text encodes the first 8, or only the first 5 when the 8-swatch text is longer than 255 UTF-16 units |
| AvatarStorage.ShrinkMayStillExceedColumn | lib/avatarStorage.ts:90-94 | The 5-swatch text is not measured again: one long name makes it exceed 255 units |
| AvatarStorage.ExpandEntry | lib/avatarStorage.ts:102-106 | A null entry throws a TypeError. Otherwise the entry makes a swatch iff its `n` is a non-empty string; the swatch is named `n`, and its hex is `h` when that is a string, else "" |
| AvatarStorage.ExpandEach | lib/avatarStorage.ts:101-106 | Fails iff some entry is null. Otherwise it returns named swatches, no more than there are entries |
| AvatarStorage.ExpandEachKeepsNamedEntries | lib/avatarStorage.ts:101-106 | When no entry throws, the result is ExpandEntry applied to every entry, with the unnamed ones dropped, in order |
| AvatarStorage.ExpandColorsFromStorage | lib/avatarStorage.ts:97-111 | Null, empty or unparsable text gives []. Every swatch read back is named |
| AvatarStorage.ExpandEachCompact | lib/avatarStorage.ts:101-106 | Reading back the compact entries of named swatches gives exactly those swatches |
| AvatarStorage.ExpandShrink | lib/avatarStorage.ts:85-111 | The palette round trip: expand(shrink(xs)) is the first 8 swatches, or the first 5 when the 8-swatch text is too long |
| AvatarStorage.ShrinkExpandShrink | lib/avatarStorage.ts:85-111 | Storing a palette read back from storage writes the same column text again |
| AvatarStorage.StoredRow | lib/avatarStorage.ts:135-164 | The row an upsert writes. An empty score list is stored as NULL, and each palette column is its shrunk text |
| AvatarStorage.MapRowToResponse | lib/avatarStorage.ts:168-184 | No row gives null. Otherwise every column is carried over: the image, the texts and the date as stored, a missing score column as [], and the palettes expanded |
| AvatarStorage.ReadAfterWrite | lib/avatarStorage.ts:122-184 | The record served after a write carries the written image, scores and texts. Its palettes are cut to what the columns keep |
| AvatarStorage.AvatarTable.FetchAvatarRow | lib/avatarStorage.ts:113-120 | Returns the user's row iff there is one, and changes nothing |
| AvatarStorage.AvatarTable.GetUserAvatarRecord | lib/avatarStorage.ts:186-190 | Returns the stored row as the API shows it, or null |
| AvatarStorage.AvatarTable.Upsert | lib/avatarStorage.ts:122-166 | Inserts, or on a duplicate key overwrites every column of that user except create_date, which keeps its stored value, NULL included. A new row is dated createdAt, or now. Other users' rows are untouched |
| AvatarStorage.AvatarTable.UpsertResettingCreateDate | app/api/avatar/route.ts:146-188 | The route's upsert: the same write, but the row is dated now even on a conflict |
| AvatarStorage.AfterUpsert | lib/avatarStorage.ts:146-153 | The library upsert adds exactly the user's key, leaves every other row alone, keeps a stored create_date (NULL included), and dates a new row createdAt or now |
| AvatarStorage.CreateDateDiscrepancy | app/api/avatar/route.ts:168-176 | Two library upserts keep the first date, while two route upserts keep the last. Otherwise the rows are equal |
| AvatarStorage.AvatarTable.DeleteRow | app/api/avatar/route.ts:402 | Removes exactly the user's row |
| ObjectKeys.ExtensionOf | app/api/avatar/route.ts:211-212 | The extension is "jpg" when the name has no match, and otherwise a run of 2 to 5 letters or digits |
| ObjectKeys.ExtensionOfLeftmostMatch | app/api/avatar/route.ts:211-212 | Whenever the pattern matches, the leftmost match decides: its run of letters and digits is the extension |
| ObjectKeys.ExtensionOfSuffix | app/api/avatar/route.ts:211-212 | A dot-free name ending in `.ext`, with or without a query after it, has extension `ext` |
| ObjectKeys.ExtractKeyFromUrl | app/api/avatar/route.ts:130-135 | Null for a null or empty URL. Otherwise a key is found iff the pattern matches somewhere, and it is the non-empty, single-line text after the leftmost match |
| ObjectKeys.ExtractKeyInvertsS3Url | app/api/avatar/route.ts:130-135 | For any bucket and region without '/', the key of the URL built at line 220 is recovered exactly |
| ObjectKeys.AvatarKey | app/api/avatar/route.ts:213-215 | The key is `avatars/{userId}_`, then the stem, then "." and the file name's extension |
| ObjectKeys.AvatarKeyKeepsExtension | app/api/avatar/route.ts:211-215 | For a dot-free user id and stem, the key's own extension is the file name's |
| ObjectKeys.AvatarUrlGivesBackKey | app/api/avatar/route.ts:213-220 | The URL of every uploaded avatar gives back its key |
| ObjectKeys.NumberToStringVisible | app/api/avatar/route.ts:213 | String() of a number has no line terminator, so the key extraction can match it |
| ObjectKeys.ObjectStore.Upload | lib/s3.ts:28-47 | A successful upload stores the body and content type under the key; a failed one changes nothing |
| ObjectKeys.ObjectStore.Delete | lib/s3.ts:49-59 | A successful delete removes the key; a failed one changes nothing |
| AvatarRoute.RequireUserId | app/api/avatar/route.ts:46-54 | A user id is returned iff the session id is truthy and Number() of it is finite |
| AvatarRoute.MissingSessionIsRefused | app/api/avatar/route.ts:46-54 | No session and an empty id are refused |
| AvatarRoute.NonNumericIdIsRefused | app/api/avatar/route.ts:46-54 | A non-numeric id is refused |
| AvatarRoute.ZeroIdDependsOnItsType | app/api/avatar/route.ts:49-50 | The numeric id 0 is refused, while the string "0" names user 0 |
| AvatarRoute.UploadContentType | app/api/avatar/route.ts:216 | The file's own type when it has one, image/jpeg when it has none |
| AvatarRoute.PostPayload | app/api/avatar/route.ts:264-283 | POST writes the new image URL, the trimmed texts, the scores normalised from photoQuality and both palettes normalised from their fields |
| AvatarRoute.TextOr | app/api/avatar/route.ts:359-364 | A text field takes the form's value, else the stored value, else null |
| AvatarRoute.ListOr | app/api/avatar/route.ts:344-368 | A list field takes the form's non-empty list, else the stored list |
| AvatarRoute.MergePayload | app/api/avatar/route.ts:340-369 | PUT writes each text from the form when present, else from the stored row, else null. Each list is the form's normalised list when non-empty, else the stored scores or the expanded stored palette, else [] |
| AvatarRoute.PutWithoutRowIsPost | app/api/avatar/route.ts:340-369 | With no stored row, PUT writes what POST would write |
| AvatarRoute.PutWithoutFieldsKeepsRow | app/api/avatar/route.ts:340-376 | A PUT without fields rewrites a stored row unchanged, except its create_date |
| AvatarRoute.ExistingImage | app/api/avatar/route.ts:312 | The stored image URL, if any |
| AvatarRoute.RowOf | app/api/avatar/route.ts:311 | The stored row of a user, if any |
| AvatarRoute.AvatarApi.UploadAvatarImage | app/api/avatar/route.ts:208-222 | The object is written under the avatar key before the S3 settings are checked. A missing setting therefore fails after the write; otherwise the result is the object's URL |
| AvatarRoute.AvatarApi.Get | app/api/avatar/route.ts:224-238 | 401 without a user; otherwise the user's record, or null |
| AvatarRoute.AvatarApi.Post | app/api/avatar/route.ts:240-295 | 401, 400 (not multipart) or 400 (no file) write nothing. A failed upload is a 500 with no row written. A successful upload puts the file's bytes and content type under `AvatarKey(userId, stem, file.name)` in the bucket. Then exactly the user's row is upserted and returned |
| AvatarRoute.AvatarApi.Put | app/api/avatar/route.ts:297-381 | A sent file is uploaded and used: on success, its bytes and content type are stored under its `AvatarKey`. Otherwise the stored image is used, and with neither the reply is 400. The row becomes the merge of the form and the stored row |
| AvatarRoute.AvatarApi.PutWithFile | app/api/avatar/route.ts:311-321 | With a file, a failed upload is a 500 that writes no row. A successful one stores the file's bytes and content type under its `AvatarKey`. The row is then the merge of the form and the stored row, with the new object's URL as the image |
| AvatarRoute.AvatarApi.PutKeepingImage | app/api/avatar/route.ts:311-328 | Without a file, the stored image is kept. With no stored image, or an empty one, the reply is 400 and nothing is written |
| AvatarRoute.AvatarApi.Delete | app/api/avatar/route.ts:383-412 | With no row nothing is touched. Otherwise, when a key can be extracted and the delete succeeds, exactly that object and its content type leave the bucket. A failed delete is ignored, and the row is always removed |
| TryOn.FirstUsable | app/api/tryon/route.ts:119-126 | Only a part with both data and a mime type is returned |
| TryOn.ScanFrom | app/api/tryon/route.ts:113-135 | The first usable part of the stream, skipping chunks without parts |
| TryOn.ScanFindsUsablePart | app/api/tryon/route.ts:113-135 | The scan finds an image iff some chunk carries a usable part |
| TryOn.FirstUsableFinds | app/api/tryon/route.ts:119-126 | Within a chunk, a part is found iff one is usable |
| TryOn.ViewOf | app/api/tryon/route.ts:124-131 | A found part becomes `data:{mime};base64,{data}` with the view's id and label |
| TryOn.GenerateSingleView | app/api/tryon/route.ts:57-136 | The chunk loop returns the view of the first usable part of the stream, or null |
| TryOn.GenerateView | app/api/tryon/route.ts:180-213 | The retry loop of one view follows its specification AttemptFrom |
| TryOn.AttemptBounds | app/api/tryon/route.ts:180-213 | A view makes 1 to 3 attempts, and every wait is 25000 ms. A view it returns carries the view's id and a data URL |
| TryOn.RateLimitWaitsAndRetries | app/api/tryon/route.ts:197-205 | A 429 on attempt 1 or 2 waits 25 s and tries again |
| TryOn.OtherErrorStops | app/api/tryon/route.ts:197-211 | Any other error, or a 429 on attempt 3, ends the view with no wait and no image |
| TryOn.NoImageRetriesAtOnce | app/api/tryon/route.ts:184-196 | A stream without an image is retried at once, without waiting |
| TryOn.GenerateTryOn | app/api/tryon/route.ts:142-232 | The loop over the views follows its specification GenerateFrom |
| TryOn.TwoViews | app/api/tryon/route.ts:153-228 | Results come in view order (front, side), each view at most once, and only views that produced an image. The waits are the front's, exactly one 8000 ms pause, then the side's |
| TryOn.BeforeSemicolon | app/api/tryon/route.ts:48 | The text before the first ';' |
| TryOn.MimeOfShape | app/api/tryon/route.ts:48-49 | The mime type is trimmed and holds no ';' |
| TryOn.MimeOfMediaType | app/api/tryon/route.ts:48-49 | A media type followed by parameters gives back the media type |
| TryOn.MimeOfMissingHeader | app/api/tryon/route.ts:48-49 | No Content-Type, or an empty one, gives image/jpeg |
| TryOn.ImageUrl | app/api/tryon/route.ts:35-37 | Absolute URLs are kept, and relative ones are prefixed with the base URL |
| TryOn.FetchImageAsBase64 | app/api/tryon/route.ts:32-52 | Succeeds iff the answer is 2xx. The image is then the body's base64 with the parsed mime type |
| TryOn.PreflightOf | app/api/tryon/route.ts:234-347 | The checks run in order before any generation: 401 without a user, 500 without a key, 400 without a productId, 400 without an avatar image, 400 without a product image. An unparsable or null body is a 500 carrying "Error al generar el probador virtual: " and the error's message. A failed image fetch is a 500 with that prefix and the fetch error's message, the avatar's first. Otherwise the request is ready with both fetched images and the product's name, or "prenda" |
| TryOn.ProductName | app/api/tryon/route.ts:305 | `nombre || "prenda"`: a non-empty name is kept, an absent or empty one becomes "prenda", so the name is never empty |
| TryOn.Post | app/api/tryon/route.ts:234-348 | A refused request takes no waits. Otherwise both views are generated, zero views is a 500, and the success message counts the views |
| Uploads.Backoff | app/api/uploads/route.ts:143-149 | The sleep after a thrown attempt k is 500·2^(k-1) ms |
| Uploads.FetchWithRetries | app/api/uploads/route.ts:109-153 | The attempt loop follows its specification RetryFrom: result, sleeps and number of fetches |
| Uploads.RetryBounds | app/api/uploads/route.ts:114 | At most `attempts` fetches are issued, and every attempt before the last one went on |
| Uploads.RetryResult | app/api/uploads/route.ts:114-152 | An OK result is the last answer. A rethrow happens only on a throw at the last attempt. Null means a 4xx, or the attempts ran out without an OK answer |
| Uploads.RetryDelays | app/api/uploads/route.ts:135-149 | The sleeps are exactly one back-off per throw before the last attempt, in order |
| Uploads.ClientErrorStops | app/api/uploads/route.ts:125-130 | A 4xx ends the attempts there with null and no further fetch |
| Uploads.ServerErrorsGiveNull | app/api/uploads/route.ts:131-132 | Answers that are all non-OK and not 4xx are retried at once, without sleeping, and give null |
| Uploads.ThreeThrows | app/api/uploads/route.ts:135-149 | With three attempts, three throws sleep 500 ms and 1000 ms and then rethrow |
| Uploads.TrialTable.Insert | app/api/uploads/route.ts:67-82 | A successful insert appends the row; a failed one leaves the table unchanged |
| Uploads.KeyPrefix | app/api/uploads/route.ts:61 | The folder is "uploads" iff the field is "original", and "generated" otherwise |
| Uploads.ObjectKey | app/api/uploads/route.ts:62-64 | The key is the folder, "/", the stem, then "." and the name's extension |
| Uploads.ObjectKeyKeepsExtension | app/api/uploads/route.ts:62-64 | For a dot-free folder and stem, the key's own extension is the name's |
| Uploads.ContentTypeOr | app/api/uploads/route.ts:65 | The given content type when it is non-empty, image/jpeg when it is empty |
| Uploads.FirstEntry | app/api/uploads/route.ts:39-40 | `formData.get` returns the value of the first entry with that name: an entry with that name, with none of that name before it. It returns null when there is no such entry |
| Uploads.MultipartContext | app/api/uploads/route.ts:39-42 | A truthy productId is stored as `Number(value)`, a truthy guarda_resultado as `String(value)`, and a falsy one as null. The user id is the session's id, or null (line 16); the bucket and region are the configured ones |
| Uploads.JsonContext | app/api/uploads/route.ts:191-192 | `body.productId ?? null` and `body.guarda_resultado ?? null`: null for a nullish value, the body's value otherwise, never undefined. The user id is the session's id or null (line 16); the bucket and region are the configured ones |
| Uploads.ImagesOf | app/api/uploads/route.ts:94-100 | A batch of URLs iff `images` is a non-empty array |
| Uploads.FileStepAppends | app/api/uploads/route.ts:50-87 | An entry adds one reported item iff it is a file whose upload succeeds. The item is in one of the two folders, with at most one row, and there is no sleep |
| Uploads.OriginalFieldGoesToUploads | app/api/uploads/route.ts:61-64 | A file under "original" is stored in uploads/, and any other file in generated/ |
| Uploads.FailedOrTextEntryIsSkipped | app/api/uploads/route.ts:83-85 | A text field, or a file whose upload fails, leaves everything as it was |
| Uploads.FailedInsertIsStillReported | app/api/uploads/route.ts:67-82 | A stored file whose insert fails is still reported, without an insert id or a row |
| Uploads.MultipartAppends | app/api/uploads/route.ts:50-87 | The multipart loop reports exactly one item per stored file, in uploads/ or generated/ |
| Uploads.MultipartRows | app/api/uploads/route.ts:50-87 | The multipart loop only appends rows, at most one per reported item, and never sleeps |
| Uploads.UrlStepAppends | app/api/uploads/route.ts:155-216 | A URL adds one item in generated/ iff it is fetched with an OK answer and uploaded |
| Uploads.FailedFetchIsSkipped | app/api/uploads/route.ts:158-174 | A URL whose fetch gives no OK answer changes nothing but the sleeps taken |
| Uploads.JsonAppends | app/api/uploads/route.ts:155-216 | The JSON loop reports exactly one item in generated/ per URL it stored; failures do not stop it |
| Uploads.JsonRows | app/api/uploads/route.ts:189-202 | The JSON loop only appends rows, at most one per reported item |
| Uploads.UploadsApi.StoreItem | app/api/uploads/route.ts:65-82 | Uploads one object and records it, as StoreStep specifies |
| Uploads.UploadsApi.MultipartBatch | app/api/uploads/route.ts:50-87 | The multipart loop follows its specification MultipartFrom |
| Uploads.UploadsApi.JsonBatch | app/api/uploads/route.ts:155-216 | The JSON loop follows its specification JsonFrom, sleeps included |
| Uploads.UploadsApi.FetchItem | app/api/uploads/route.ts:158-202 | One URL: the fetch's sleeps are logged, and the body is stored only after an OK answer, as UrlStep specifies |
| Uploads.UploadsApi.Post | app/api/uploads/route.ts:10-226 | A multipart request runs the file loop. A JSON body without images is a 400 and a null body a 500, both writing nothing. Otherwise the URL loop runs |
| AvatarWizard.ClampScore | app/components/profile/VirtualAvatarWizard.tsx:85-86 | NaN stays NaN. Everything else becomes an integer in [0, 100], and an in-range integer is kept |
| AvatarWizard.ClampScoreMatchesValidator | app/components/profile/VirtualAvatarWizard.tsx:85-86 | Round-then-clamp in the wizard equals clamp-then-round in the validator |
| AvatarWizard.NormalizeClientScore | app/components/profile/VirtualAvatarWizard.tsx:88-97 | Throws iff the label is neither a string nor nullish. Otherwise the title is the validator's ScoreTitle of the label, and the value is ClampScore of Number() of the value, 0 when missing |
| AvatarWizard.ClientScoreIsValidatorScore | app/components/profile/VirtualAvatarWizard.tsx:88-97 | The wizard and the validator normalise every score entry to the same score |
| AvatarWizard.NormalizeClientPhotoScores | app/components/profile/VirtualAvatarWizard.tsx:88-97 | No scores, or an empty list, gives the four default scores. Otherwise each entry is normalised |
| AvatarWizard.ClientScoresAreWellFormed | app/components/profile/VirtualAvatarWizard.tsx:88-97 | The client's scores are never empty and are all well formed |
| AvatarWizard.SanitizeClientList | app/components/profile/VirtualAvatarWizard.tsx:99-104 | A non-array gives []. A one-entry array keeps the entry's trimmed text iff it is a non-blank string; with SanitizeClientListAppend this fixes the kept texts and their order, with no cap |
| AvatarWizard.SanitizeClientListAppend | app/components/profile/VirtualAvatarWizard.tsx:99-104 | Sanitising a concatenation sanitises each part |
| AvatarWizard.ValidatorListIsClientListCapped | app/components/profile/VirtualAvatarWizard.tsx:99-104 | Where the validator's list succeeds, it is the wizard's list cut to six entries |
| AvatarWizard.ValidationOutcome | app/components/profile/VirtualAvatarWizard.tsx:295-313 | An unreachable server or a non-OK answer throws with the reply's error message. An OK answer throws a TypeError exactly when the client's score normalisation throws. Otherwise the reasons and tips are the sanitised lists of the result, the scores are its normalised scores, the status is approved iff the verdict is exactly "approved", and the message follows the status |
| AvatarWizard.ShouldShow | app/components/profile/VirtualAvatarWizard.tsx:266-269 | Reasons and tips are never shown for an approved photo, and otherwise only when present |
| AvatarWizard.CanContinue | app/components/profile/VirtualAvatarWizard.tsx:367-380 | Step 0 needs a file and an approved validation; steps 1 and 2 need their four fields non-empty |
| AvatarWizard.StepStatusOf | app/components/profile/VirtualAvatarWizard.tsx:391-395 | Steps before the current one are complete, and later ones upcoming |
| AvatarWizard.Wizard.GoNext | app/components/profile/VirtualAvatarWizard.tsx:382-385 | One step forward, none at step 3; the step stays in [0, 3] |
| AvatarWizard.Wizard.GoPrev | app/components/profile/VirtualAvatarWizard.tsx:387-389 | One step back, none at step 0 |
| AvatarWizard.Wizard.PressContinue | app/components/profile/VirtualAvatarWizard.tsx:881-890 | The button advances only when canContinue holds, so leaving step 0 needs an approved photo |
| AvatarWizard.Wizard.ChangeInfo | app/components/profile/VirtualAvatarWizard.tsx:351-357 | The field takes the value, and the avatar is marked not created |
| AvatarWizard.Wizard.ChangeMeasurement | app/components/profile/VirtualAvatarWizard.tsx:359-365 | The field takes the value, and the avatar is marked not created |
| AvatarWizard.Wizard.RevokeObjectUrl | app/components/profile/VirtualAvatarWizard.tsx:336-339 | No object URL stays live |
| AvatarWizard.Wizard.RunPhotoValidation | app/components/profile/VirtualAvatarWizard.tsx:271-285 | The previous validation is aborted and a new one becomes current. The status is loading, with no reasons, tips or scores |
| AvatarWizard.Wizard.FinishPhotoValidation | app/components/profile/VirtualAvatarWizard.tsx:300-329 | A settled reply sets the validation and its message. An aborted run's failure changes nothing. Any other failure sets "error", with the message as the only reason and the default scores |
| AvatarWizard.Wizard.HandlePhotoChange | app/components/profile/VirtualAvatarWizard.tsx:332-349 | A new photo replaces the single live object URL and clears avatarCreated. It aborts the previous validation and starts one |
| AvatarWizard.Wizard.HandleCreateAvatar | app/components/profile/VirtualAvatarWizard.tsx:397-430 | A request is sent iff there is a file and the photo is approved. Without approval the wizard returns to step 0. The request carries the validation's scores, or the defaults |
| AvatarWizard.Wizard.FinishCreateAvatar | app/components/profile/VirtualAvatarWizard.tsx:431-459 | A saved avatar with an image replaces the preview and revokes the object URL. A failure only shows its message |
| AvatarWizard.Wizard.LoadStoredAvatar | app/components/profile/VirtualAvatarWizard.tsx:153-190 | A stored avatar with an image replaces the preview and revokes the object URL. A cancelled or failed load changes nothing |
| AvatarWizard.Wizard.Unmount | app/components/profile/VirtualAvatarWizard.tsx:137-150 | The object URL is revoked and the validation in flight is aborted |
| AvatarWizard.SupersededValidationIsIgnored | app/components/profile/VirtualAvatarWizard.tsx:271-349 | After a second photo, the first validation's late failure leaves the second's loading state untouched |
| ProductVariations.BlankColorHasNoKey | app/components/products/ProductVariations.tsx:60-64 | A variation has no colour key iff its colour is missing, falsy or blank |
| ProductVariations.DedupeByColor | app/components/products/ProductVariations.tsx:56-68 | The loop keeps exactly the first variation of every non-blank colour key, in input order |
| ProductVariations.DedupeBy | app/components/products/ProductVariations.tsx:56-68 | The loop with its `seen` set follows the first-occurrence specification |
| ProductVariations.SeenMeansEarlier | app/components/products/ProductVariations.tsx:64-66 | A key has been seen iff an earlier variation has it |
| ProductVariations.KeptIndices | app/components/products/ProductVariations.tsx:56-68 | The kept positions increase and are exactly the first occurrences |
| ProductVariations.FirstOccurrencesAreASubsequence | app/components/products/ProductVariations.tsx:56-68 | The output is the input restricted to those positions, in order |
| ProductVariations.OneVariationPerColor | app/components/products/ProductVariations.tsx:56-68 | Every kept variation has a key and no two share one. Every non-blank key of the input is represented |
| ProductVariations.SwatchColor | app/components/products/ProductVariations.tsx:77-81 | The swatch is COLOR_MAP[key], or #eee |
| ProductVariations.SwatchColorIsHex | app/components/products/ProductVariations.tsx:10-26 | Every swatch colour is a CSS hex colour |
| ProductVariations.VariationPicker.SelectedIdChanged | app/components/products/ProductVariations.tsx:50-54 | currentId is reset to selectedId whenever that changes |
| ProductVariations.VariationPicker.Swatches | app/components/products/ProductVariations.tsx:77-82 | One swatch per kept variation, in order. Each has its mapped colour and is selected iff its id is currentId |
| ColorimetryPanel.Truthies | app/components/profile/ColorimetriaPanel.tsx:40 | `filter(Boolean)` keeps only truthy items |
| ColorimetryPanel.TruthiesKeepEveryTruthy | app/components/profile/ColorimetriaPanel.tsx:40 | Every truthy item is kept as often as it occurs |
| ColorimetryPanel.ShowSwatch | app/components/profile/ColorimetriaPanel.tsx:41-44 | Name and hex are never falsy: a truthy value is kept, otherwise "Sin nombre" and "#f5f5f4" |
| ColorimetryPanel.NormalizeSwatches | app/components/profile/ColorimetriaPanel.tsx:37-45 | A non-array gives []. Otherwise there is one swatch per truthy item, in order, with defaults applied |
| ColorimetryPanel.NormalizeKeepsOrder | app/components/profile/ColorimetriaPanel.tsx:37-45 | Normalising splits over concatenation, so order is kept |
| ColorimetryPanel.NormalizeSwatchesIdempotent | app/components/profile/ColorimetriaPanel.tsx:37-45 | Normalising the panel's own output again changes nothing |
| ColorimetryPanel.FormatMeta | app/components/profile/ColorimetriaPanel.tsx:57 | The trimmed value, or "Sin dato"; never empty |
| ColorimetryPanel.FormatMetaPlaceholder | app/components/profile/ColorimetriaPanel.tsx:57 | "Sin dato" shows iff the value is missing or all white space |
| ColorimetryPanel.FormatMetaIdempotent | app/components/profile/ColorimetriaPanel.tsx:57 | Formatting a formatted value changes nothing |
| ColorimetryPanel.RenderPanel | app/components/profile/ColorimetriaPanel.tsx:59-68 | The three cards are never empty, and every shown swatch has a name and a hex |
| ColorimetryPanel.CamelCaseWins | app/components/profile/ColorimetriaPanel.tsx:59-68 | A camelCase prop that is passed, even blank, hides its snake_case twin |
| ColorimetryPanel.SnakeCaseFallback | app/components/profile/ColorimetriaPanel.tsx:59-68 | A missing camelCase prop falls back to the snake_case one |
| ColorimetryPanel.EmptyCamelPaletteHidesSnake | app/components/profile/ColorimetriaPanel.tsx:63-68 | Because `??` is not `\|\|`, an empty camelCase palette hides a filled snake_case one |

## Left out

- **Network, SDKs, S3.** `fetch`, the Gemini streaming SDK, the Azure HTTP call and the S3 client are outcome parameters (per attempt, per item, or booleans).
- **Database.** Only the `prueba_virtual` insert of the uploads route has an outcome parameter (`TrialTable.Insert`). The `usuario_avatar` queries of the avatar routes always succeed in the model. Their rejections, and `ensureTable` or a failed session lookup, land in the route's catch and become a 500 (app/api/avatar/route.ts:229-236, 287-294, 372-379, 403-410); those 500 replies are not modelled. The schema is not modelled.
- **Form parsing.** `req.formData()` is assumed to succeed (app/api/avatar/route.ts:254 and 314, app/api/uploads/route.ts:36). A malformed body would reject, and the route's catch would answer 500 (app/api/uploads/route.ts:219-225); that reply is not modelled.
- **JSON.parse.** It is a parameter. The palette round trip assumes only that it reads back what the compact encoder writes (`ParsesCompactEncodings`). `JSON.stringify` of the compact list is written out.
- **Prompts and schemas.** The prompt texts and the JSON schema of each request are opaque parameters. Only the message layout and the metadata lines are modelled.
- **Numbers.** Finite numbers are exact reals, and binary floating point is not modelled. `Number()` of strings covers decimal literals and the Infinity forms only. `toLowerCase` covers Basic Latin and Latin-1.
- **Clock and randomness.** `Date.now()` and `Math.random()` in object keys are an opaque stem per item. `NOW()` and `toISOString()` are a millisecond count.
- **Timers.** Sleeps are recorded delays. The 30000 ms abort timeout of an upload fetch is a thrown attempt. The wizard's 2200 ms redirect timer and `router.push` are not modelled.
- **Concurrency.** `Promise.all` over the two image fetches of the try-on route is modelled as the avatar fetch checked before the product fetch. The reply differs only in which error message is reported when both fail.
- **Presentation.** JSX, modals, toasts, icons, the score averages shown by the wizard, and the status copy are presentation.
- **Logging.** Console logging is not modelled.
- **Error texts.** The engine's message for a TypeError (destructuring a null request body, a non-string label) is approximated.
- **Table keys.** The `usuario_avatar` table is keyed by `real`, because the session id is any finite `Number()`, not only an integer.
- AvatarStorage.ExpandEntry: swatch names and hexes are strings in the model. The source keeps any `n` whose `length` is positive (a non-empty array, say) and passes a non-string `h` through, which the typed model reads as no swatch and "" respectively.
- ProductVariations.SwatchColor: `COLOR_MAP[key]` is a map lookup in the model. In JavaScript, keys such as "constructor", "__proto__" or "toString" find inherited members of `Object.prototype`, which are truthy, so the source would render them instead of `#eee`.
- **Score column.** The `calidad_foto_json` column holds the score list itself rather than its JSON text.
- AvatarRoute.MergePayload: the PUT fallback reads stored scores as a list, so a corrupt score column, which would make `JSON.parse` throw, is not modelled.
- **S3 settings.** The S3 helper's own bucket check is folded into the upload outcome `uploadOk`.
- **Colour analysis.** No route calls `fetchColorimetriaForAvatar`, so only its contract is modelled. PUT never deletes the superseded image, and the model does not add such a step.
- TryOn.AttemptBounds: states the wait and attempt bounds of one view, not the model's text or its image beyond the `data:` prefix. The image text is in ViewOf.
