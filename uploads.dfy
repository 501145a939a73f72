/**
 * The uploads route (app/api/uploads/route.ts): a multipart form whose files are stored
 * in S3 and recorded in `prueba_virtual`, or a JSON body listing remote image URLs that
 * are fetched with retries, stored and recorded. Failures skip the item and the batch
 * goes on.
 */
module Uploads {
  import opened Common
  import opened Js
  import opened Base64
  import opened AvatarStorage
  import opened ObjectKeys

  // ---------------------------------------------------------------- fetchWithRetries

  /** A fetch answer, with its status, Content-Type header and body. */
  datatype Response = Response(status: int, contentType: string, body: seq<byte>)

  /** What one fetch attempt does: it answers, or it throws (network failure or abort). */
  datatype FetchOutcome = Answered(res: Response) | Thrown

  /** What fetchWithRetries gives its caller: an OK response, null, or the last attempt's exception. */
  datatype FetchResult = Got(res: Response) | NoResponse | Rethrown

  /** The result, the back-off sleeps taken (in ms, in order) and the number of fetches issued. */
  datatype Trace = Trace(result: FetchResult, delays: seq<nat>, fetches: nat)

  predicate IsOk(status: int) {
    200 <= status <= 299
  }

  predicate IsClientError(status: int) {
    400 <= status < 500
  }

  function Pow2(k: nat): (p: nat)
    ensures p >= 1
  {
    if k == 0 then 1 else 2 * Pow2(k - 1)
  }

  /** The sleep after a thrown attempt: 500, 1000, 2000, … ms. */
  function Backoff(attempt: nat): (ms: nat)
    requires attempt >= 1
    ensures ms >= 500
  {
    500 * Pow2(attempt - 1)
  }

  /** `t` preceded by `fetches` earlier attempts that slept `delays`. */
  function After(delays: seq<nat>, fetches: nat, t: Trace): Trace {
    Trace(t.result, delays + t.delays, fetches + t.fetches)
  }

  /**
   * fetchWithRetries from attempt `k` on, where `outcome(k)` is what attempt `k` does: an
   * OK answer is returned, a 4xx answer gives null at once, another non-OK answer is
   * retried at once, and a throw is retried after a back-off unless it was the last
   * attempt, in which case it is rethrown. Running out of attempts gives null.
   */
  function RetryFrom(attempts: nat, outcome: nat -> FetchOutcome, k: nat): Trace
    requires k >= 1
    decreases attempts + 1 - k
  {
    if k > attempts then Trace(NoResponse, [], 0)
    else
      match outcome(k)
      case Answered(res) =>
        if IsOk(res.status) then Trace(Got(res), [], 1)
        else if IsClientError(res.status) then Trace(NoResponse, [], 1)
        else After([], 1, RetryFrom(attempts, outcome, k + 1))
      case Thrown =>
        if k == attempts then Trace(Rethrown, [], 1)
        else After([Backoff(k)], 1, RetryFrom(attempts, outcome, k + 1))
  }

  /** fetchWithRetries: the loop over attempts 1..attempts, proved to follow RetryFrom. */
  method FetchWithRetries(attempts: nat, outcome: nat -> FetchOutcome) returns (t: Trace)
    ensures t == RetryFrom(attempts, outcome, 1)
  {
    var delays: seq<nat> := [];
    var attempt := 1;
    while attempt <= attempts
      invariant 1 <= attempt <= attempts + 1
      invariant RetryFrom(attempts, outcome, 1) == After(delays, attempt - 1, RetryFrom(attempts, outcome, attempt))
    {
      var o := outcome(attempt);
      if o.Answered? && IsOk(o.res.status) {
        return Trace(Got(o.res), delays, attempt);
      } else if o.Answered? && IsClientError(o.res.status) {
        return Trace(NoResponse, delays, attempt);
      } else if o.Thrown? && attempt == attempts {
        return Trace(Rethrown, delays, attempt);
      }
      var slept := if o.Thrown? then [Backoff(attempt)] else [];
      AfterAfter(delays, attempt - 1, slept, RetryFrom(attempts, outcome, attempt + 1));
      delays := delays + slept;
      attempt := attempt + 1;
    }
    t := Trace(NoResponse, delays, attempts);
  }

  lemma AfterAfter(d1: seq<nat>, f1: nat, d2: seq<nat>, t: Trace)
    ensures After(d1, f1, After(d2, 1, t)) == After(d1 + d2, f1 + 1, t)
  {
    assert d1 + (d2 + t.delays) == (d1 + d2) + t.delays;
  }

  /** An attempt after which the loop goes on: a non-OK answer other than 4xx, or a throw before the last attempt. */
  predicate Retried(o: FetchOutcome, attempt: nat, attempts: nat) {
    match o
    case Answered(res) => !IsOk(res.status) && !IsClientError(res.status)
    case Thrown => attempt < attempts
  }

  /** The back-offs owed to the throws among attempts from..to-1. */
  function Backoffs(outcome: nat -> FetchOutcome, from: nat, to: nat): seq<nat>
    requires from >= 1
    decreases (to as int) - (from as int)
  {
    if from >= to then [] else (if outcome(from).Thrown? then [Backoff(from)] else []) + Backoffs(outcome, from + 1, to)
  }

  /**
   * At most `attempts` fetches are issued, at least one when there is an attempt to make,
   * and every attempt before the last one issued was one the loop goes on after.
   */
  lemma {:induction false} RetryBounds(attempts: nat, outcome: nat -> FetchOutcome, k: nat)
    requires 1 <= k <= attempts + 1
    ensures var t := RetryFrom(attempts, outcome, k);
      && t.fetches <= attempts + 1 - k
      && (k <= attempts ==> t.fetches >= 1)
      && forall i :: k <= i < k + t.fetches - 1 ==> Retried(outcome(i), i, attempts)
    decreases attempts + 1 - k
  {
    if k <= attempts {
      match outcome(k)
      case Answered(res) =>
        if !IsOk(res.status) && !IsClientError(res.status) {
          RetryBounds(attempts, outcome, k + 1);
        }
      case Thrown =>
        if k < attempts {
          RetryBounds(attempts, outcome, k + 1);
        }
    }
  }

  /**
   * How the loop ended, read off its last attempt: an OK answer is what is returned; a
   * rethrow comes from a throw on the last attempt; null is a 4xx answer, or the last
   * attempt answering non-OK, or no attempt at all.
   */
  lemma {:induction false} RetryResult(attempts: nat, outcome: nat -> FetchOutcome, k: nat)
    requires 1 <= k <= attempts + 1
    ensures var t := RetryFrom(attempts, outcome, k);
      var last := k + t.fetches - 1;
      && (t.result.Got? ==> t.fetches >= 1 && outcome(last) == Answered(t.result.res) && IsOk(t.result.res.status))
      && (t.result.Rethrown? ==> t.fetches >= 1 && last == attempts && outcome(last).Thrown?)
      && (t.result.NoResponse? ==>
            (t.fetches >= 1 && outcome(last).Answered? && IsClientError(outcome(last).res.status))
            || (last == attempts && (t.fetches == 0 || (outcome(last).Answered? && !IsOk(outcome(last).res.status)))))
    decreases attempts + 1 - k
  {
    if k <= attempts && Retried(outcome(k), k, attempts) {
      RetryResult(attempts, outcome, k + 1);
      RetryBounds(attempts, outcome, k + 1);
      RetryGoesOn(attempts, outcome, k);
    }
  }

  /** After an attempt the loop goes on from, the trace is that attempt followed by the rest. */
  lemma RetryGoesOn(attempts: nat, outcome: nat -> FetchOutcome, k: nat)
    requires 1 <= k <= attempts && Retried(outcome(k), k, attempts)
    ensures RetryFrom(attempts, outcome, k)
         == After(if outcome(k).Thrown? then [Backoff(k)] else [], 1, RetryFrom(attempts, outcome, k + 1))
  {
  }

  /** The sleeps are exactly one back-off per throw before the last attempt issued, in order. */
  lemma {:induction false} RetryDelays(attempts: nat, outcome: nat -> FetchOutcome, k: nat)
    requires 1 <= k <= attempts + 1
    ensures var t := RetryFrom(attempts, outcome, k);
      t.delays == Backoffs(outcome, k, k + t.fetches - 1)
    decreases attempts + 1 - k
  {
    if k <= attempts {
      match outcome(k)
      case Answered(res) =>
        if !IsOk(res.status) && !IsClientError(res.status) {
          RetryDelays(attempts, outcome, k + 1);
          RetryBounds(attempts, outcome, k + 1);
        }
      case Thrown =>
        if k < attempts {
          RetryDelays(attempts, outcome, k + 1);
          RetryBounds(attempts, outcome, k + 1);
        }
    }
  }

  /** A 4xx answer ends the attempts there: null, no further fetch. */
  lemma {:induction false} ClientErrorStops(attempts: nat, outcome: nat -> FetchOutcome, k: nat, j: nat)
    requires 1 <= k <= j <= attempts
    requires forall i :: k <= i < j ==> Retried(outcome(i), i, attempts)
    requires outcome(j).Answered? && IsClientError(outcome(j).res.status)
    ensures RetryFrom(attempts, outcome, k).result == NoResponse
    ensures RetryFrom(attempts, outcome, k).fetches == j + 1 - k
    decreases j - k
  {
    if k < j {
      assert Retried(outcome(k), k, attempts);
      ClientErrorStops(attempts, outcome, k + 1, j);
    }
  }

  /** Answers that are all non-OK and not 4xx are retried at once, with no sleep, and give null. */
  lemma {:induction false} ServerErrorsGiveNull(attempts: nat, outcome: nat -> FetchOutcome, k: nat)
    requires 1 <= k <= attempts + 1
    requires forall i :: k <= i <= attempts ==>
               outcome(i).Answered? && !IsOk(outcome(i).res.status) && !IsClientError(outcome(i).res.status)
    ensures RetryFrom(attempts, outcome, k) == Trace(NoResponse, [], attempts + 1 - k)
    decreases attempts + 1 - k
  {
    if k <= attempts {
      assert outcome(k).Answered?;
      ServerErrorsGiveNull(attempts, outcome, k + 1);
    }
  }

  /** With the route's three attempts, three throws sleep 500 ms, then 1000 ms, and rethrow. */
  lemma ThreeThrows(outcome: nat -> FetchOutcome)
    requires outcome(1).Thrown? && outcome(2).Thrown? && outcome(3).Thrown?
    ensures RetryFrom(3, outcome, 1) == Trace(Rethrown, [500, 1000], 3)
  {
    assert RetryFrom(3, outcome, 3) == Trace(Rethrown, [], 1);
    assert RetryFrom(3, outcome, 2) == Trace(Rethrown, [1000], 2);
  }

  // ---------------------------------------------------------------- the prueba_virtual table

  /** A `prueba_virtual` row: user, product, stored image URL and `guarda_resultado`. */
  datatype TrialRow = TrialRow(usuarioId: JsValue, productoEspecificoId: JsValue, urlImagenResultado: string,
                               guardaResultado: JsValue)

  /** The `prueba_virtual` table; rows are appended by INSERT. */
  class TrialTable {
    var rows: seq<TrialRow>

    constructor ()
      ensures rows == []
    {
      rows := [];
    }

    /** INSERT; `outcome` is the insert id the database reports, or None when the query throws. */
    method Insert(row: TrialRow, outcome: Option<int>) returns (insertId: Option<int>)
      modifies this
      ensures insertId == outcome
      ensures outcome.Some? ==> rows == old(rows) + [row]
      ensures outcome.None? ==> rows == old(rows)
    {
      insertId := outcome;
      if outcome.Some? {
        rows := rows + [row];
      }
    }
  }

  // ---------------------------------------------------------------- batches

  /** One entry of the route's answer: the file name or URL, the object key, and the insert id when the insert worked. */
  datatype UploadedItem = UploadedItem(source: string, key: string, insertedId: Option<int>)

  /** What a batch has produced so far: its answer, the bucket, the table, and the sleeps taken. */
  datatype Batch = Batch(uploaded: seq<UploadedItem>, objects: map<string, seq<byte>>,
                         contentTypes: map<string, string>, rows: seq<TrialRow>, waits: seq<nat>)

  /**
   * The outside world, item by item: the `${Date.now()}_${random}` stem of item i's key,
   * whether its upload succeeds, its insert id (None when the insert throws), and for
   * the JSON branch what each fetch attempt of URL i does.
   */
  datatype Oracles = Oracles(stem: nat -> string, uploadOk: nat -> bool, insertId: nat -> Option<int>,
                             fetch: nat -> nat -> FetchOutcome)

  /** The values written with every row, and the AWS_S3_BUCKET / AWS_REGION settings. */
  datatype Context = Context(userId: JsValue, productId: JsValue, guarda: JsValue,
                             bucket: Option<string>, region: Option<string>)

  /** An unset setting interpolated into a template literal reads "undefined". */
  function EnvText(v: Option<string>): (r: string)
    ensures v.Some? ==> r == v.value
  {
    if v.Some? then v.value else "undefined"
  }

  function ResultUrl(ctx: Context, key: string): string {
    S3Url(EnvText(ctx.bucket), EnvText(ctx.region), key)
  }

  /** The folder of a multipart file: "uploads" for field "original", "generated" otherwise. */
  function KeyPrefix(field: string): (r: string)
    ensures r == "uploads" <==> field == "original"
    ensures r == "uploads" || r == "generated"
  {
    if field == "original" then "uploads" else "generated"
  }

  /** `${prefix}/${stem}.${extension}`. */
  function ObjectKey(prefix: string, stem: string, name: string): (key: string)
    ensures StartsWith(key, prefix + "/")
    ensures |key| == |prefix| + 1 + |stem| + 1 + |ExtensionOf(name)|
    ensures key[|prefix| + 1..|prefix| + 1 + |stem|] == stem
    ensures key[|prefix| + 1 + |stem|..] == "." + ExtensionOf(name)
  {
    prefix + "/" + stem + "." + ExtensionOf(name)
  }

  /** For a dot-free folder and stem, the object key's own extension is the source name's. */
  lemma ObjectKeyKeepsExtension(prefix: string, stem: string, name: string)
    requires forall t :: 0 <= t < |prefix| ==> prefix[t] != '.'
    requires forall t :: 0 <= t < |stem| ==> stem[t] != '.'
    ensures ExtensionOf(ObjectKey(prefix, stem, name)) == ExtensionOf(name)
  {
    var base := prefix + "/" + stem;
    forall t | 0 <= t < |base| ensures base[t] != '.' {
      if t < |prefix| {
        assert base[t] == prefix[t];
      } else if t > |prefix| {
        assert base[t] == stem[t - |prefix| - 1];
      }
    }
    var ext := ExtensionOf(name);
    if ext == "jpg" {
      assert forall t :: 0 <= t < |ext| ==> IsAlnum(ext[t]);
    }
    ExtensionOfSuffix(base, ext, "");
    assert ObjectKey(prefix, stem, name) == base + "." + ext;
  }

  /** The upload's content type: the given one, or image/jpeg when it is empty. */
  function ContentTypeOr(t: string): (r: string)
    ensures r != ""
    ensures t != "" ==> r == t
    ensures t == "" ==> r == "image/jpeg"
  {
    if t == "" then "image/jpeg" else t
  }

  /**
   * Store one item: a failed upload leaves everything as it was; otherwise the object is
   * written and the item is reported, with a row and its insert id when the insert works.
   */
  function StoreStep(b: Batch, source: string, key: string, body: seq<byte>, contentType: string,
                     i: nat, ctx: Context, o: Oracles): Batch
  {
    if !o.uploadOk(i) then b
    else
      var stored := b.(objects := b.objects[key := body], contentTypes := b.contentTypes[key := contentType]);
      match o.insertId(i)
      case None => stored.(uploaded := b.uploaded + [UploadedItem(source, key, None)])
      case Some(id) =>
        stored.(uploaded := b.uploaded + [UploadedItem(source, key, Some(id))],
                rows := b.rows + [TrialRow(ctx.userId, ctx.productId, ResultUrl(ctx, key), ctx.guarda)])
  }

  /** One multipart entry: text fields are ignored, file i is stored under its field's folder. */
  function FileStep(b: Batch, field: string, entry: FormEntry, i: nat, ctx: Context, o: Oracles): Batch {
    if !entry.FormFile? then b
    else StoreStep(b, entry.name, ObjectKey(KeyPrefix(field), o.stem(i), entry.name), entry.bytes,
                   ContentTypeOr(entry.mimeType), i, ctx, o)
  }

  /** A branch's loop: `step(p, i)` applied to items 0 .. n-1 in turn, starting from `b`. */
  function Loop(b: Batch, n: nat, step: (Batch, nat) -> Batch): Batch {
    if n == 0 then b else step(Loop(b, n - 1, step), n - 1)
  }

  /** The multipart loop's body, for entry i. */
  function FileStepAt(entries: seq<(string, FormEntry)>, ctx: Context, o: Oracles): (Batch, nat) -> Batch {
    (p: Batch, i: nat) => if i < |entries| then FileStep(p, entries[i].0, entries[i].1, i, ctx, o) else p
  }

  /** The multipart loop over the first `n` form entries. */
  function MultipartFrom(b: Batch, entries: seq<(string, FormEntry)>, n: nat, ctx: Context, o: Oracles): Batch
    requires n <= |entries|
  {
    Loop(b, n, FileStepAt(entries, ctx, o))
  }

  /** Entry n is handled after entries 0 .. n-1. */
  lemma MultipartFromStep(b: Batch, entries: seq<(string, FormEntry)>, n: nat, ctx: Context, o: Oracles)
    requires n < |entries|
    ensures MultipartFrom(b, entries, n + 1, ctx, o)
         == FileStep(MultipartFrom(b, entries, n, ctx, o), entries[n].0, entries[n].1, n, ctx, o)
  {
  }

  /**
   * One URL of the JSON branch: it is fetched with three attempts, and an OK answer is
   * stored under "generated/". Any other result skips the URL; only its sleeps remain.
   * An entry that is not a string is fetched too (fetch converts it to text), but
   * `url.match` then throws, so it is skipped after its sleeps.
   */
  function UrlStep(b: Batch, item: JsValue, i: nat, ctx: Context, o: Oracles): Batch {
    var t := RetryFrom(3, o.fetch(i), 1);
    var slept := b.(waits := b.waits + t.delays);
    if !item.JStr? || !t.result.Got? then slept
    else StoreStep(slept, item.s, ObjectKey("generated", o.stem(i), item.s), t.result.res.body,
                   ContentTypeOr(t.result.res.contentType), i, ctx, o)
  }

  /** The JSON loop's body, for URL i. */
  function UrlStepAt(items: seq<JsValue>, ctx: Context, o: Oracles): (Batch, nat) -> Batch {
    (p: Batch, i: nat) => if i < |items| then UrlStep(p, items[i], i, ctx, o) else p
  }

  /** The JSON-branch loop over the first `n` URLs. */
  function JsonFrom(b: Batch, items: seq<JsValue>, n: nat, ctx: Context, o: Oracles): Batch
    requires n <= |items|
  {
    Loop(b, n, UrlStepAt(items, ctx, o))
  }

  /** URL n is handled after URLs 0 .. n-1. */
  lemma JsonFromStep(b: Batch, items: seq<JsValue>, n: nat, ctx: Context, o: Oracles)
    requires n < |items|
    ensures JsonFrom(b, items, n + 1, ctx, o) == UrlStep(JsonFrom(b, items, n, ctx, o), items[n], n, ctx, o)
  {
  }

  // ---------------------------------------------------------------- batch properties

  /** How many of the items 0 .. n-1 satisfy `stored`. */
  function Count(stored: nat -> bool, n: nat): (c: nat)
    ensures c <= n
    ensures (forall i :: 0 <= i < n ==> stored(i)) ==> c == n
  {
    if n == 0 then 0 else Count(stored, n - 1) + (if stored(n - 1) then 1 else 0)
  }

  /** Whether entry i is a file whose upload succeeds. */
  function FileStored(entries: seq<(string, FormEntry)>, o: Oracles): nat -> bool {
    (i: nat) => i < |entries| && entries[i].1.FormFile? && o.uploadOk(i)
  }

  /** Whether URL i is fetched with an OK answer and then uploaded. */
  function UrlStored(items: seq<JsValue>, o: Oracles): nat -> bool {
    (i: nat) => i < |items| && items[i].JStr? && RetryFrom(3, o.fetch(i), 1).result.Got? && o.uploadOk(i)
  }

  /** A key in one of the two folders the route writes to. */
  predicate KeptFolder(key: string) {
    StartsWith(key, "uploads/") || StartsWith(key, "generated/")
  }

  /** A key in the folder of fetched images. */
  predicate InGenerated(key: string) {
    StartsWith(key, "generated/")
  }

  /** From `p` to `r`, exactly `count` items were appended, all with keys satisfying `ok`, and the earlier ones were left alone. */
  predicate Appends(p: seq<UploadedItem>, r: seq<UploadedItem>, count: nat, ok: string -> bool) {
    |r| == |p| + count && r[..|p|] == p && forall j :: |p| <= j < |r| ==> ok(r[j].key)
  }

  /** From `p` to `r`, items and rows were only appended, and at most one row per appended item. */
  predicate RowsFollow(p: Batch, r: Batch) {
    && |p.uploaded| <= |r.uploaded|
    && |p.rows| <= |r.rows| <= |p.rows| + |r.uploaded| - |p.uploaded|
    && r.rows[..|p.rows|] == p.rows
  }

  /** A loop whose every step appends one item when `stored` holds and none otherwise appends `Count(stored, n)` items. */
  lemma {:induction false} LoopAppends(b: Batch, n: nat, step: (Batch, nat) -> Batch, stored: nat -> bool, ok: string -> bool)
    requires forall p: Batch, i: nat :: i < n ==> Appends(p.uploaded, step(p, i).uploaded, if stored(i) then 1 else 0, ok)
    ensures Appends(b.uploaded, Loop(b, n, step).uploaded, Count(stored, n), ok)
  {
    if n > 0 {
      LoopAppends(b, n - 1, step, stored, ok);
      var p := Loop(b, n - 1, step);
      var r := Loop(b, n, step);
      assert Appends(p.uploaded, r.uploaded, if stored(n - 1) then 1 else 0, ok);
      PrefixKept(b.uploaded, p.uploaded, r.uploaded);
      KeysKeptAfterAppend(p.uploaded, r.uploaded, |b.uploaded|, ok);
    }
  }

  /** A loop whose every step keeps RowsFollow keeps it overall. */
  lemma {:induction false} LoopRows(b: Batch, n: nat, step: (Batch, nat) -> Batch)
    requires forall p: Batch, i: nat :: i < n ==> RowsFollow(p, step(p, i))
    ensures RowsFollow(b, Loop(b, n, step))
  {
    if n > 0 {
      LoopRows(b, n - 1, step);
      var p := Loop(b, n - 1, step);
      var r := Loop(b, n, step);
      assert RowsFollow(p, r);
      PrefixKept(b.rows, p.rows, r.rows);
    }
  }

  /** A loop whose every step leaves the sleeps alone takes none. */
  lemma {:induction false} LoopNoSleep(b: Batch, n: nat, step: (Batch, nat) -> Batch)
    requires forall p: Batch, i: nat :: i < n ==> step(p, i).waits == p.waits
    ensures Loop(b, n, step).waits == b.waits
  {
    if n > 0 {
      LoopNoSleep(b, n - 1, step);
    }
  }

  /** A prefix of a prefix stays a prefix. */
  lemma PrefixKept<T>(b: seq<T>, p: seq<T>, r: seq<T>)
    requires |b| <= |p| <= |r| && p[..|b|] == b && r[..|p|] == p
    ensures r[..|b|] == b
  {
    assert r[..|b|] == r[..|p|][..|b|];
  }

  /** Appending items whose keys satisfy `ok` to a list whose keys from `from` on satisfy it keeps that so. */
  lemma KeysKeptAfterAppend(p: seq<UploadedItem>, r: seq<UploadedItem>, from: nat, ok: string -> bool)
    requires from <= |p| <= |r| && r[..|p|] == p
    requires forall j :: from <= j < |p| ==> ok(p[j].key)
    requires forall j :: |p| <= j < |r| ==> ok(r[j].key)
    ensures forall j :: from <= j < |r| ==> ok(r[j].key)
  {
    forall j | from <= j < |p| ensures ok(r[j].key) {
      assert r[j] == r[..|p|][j];
    }
  }

  /** One multipart entry appends one item, in one of the two folders, exactly when it is a file whose upload succeeds; at most one row; no sleep. */
  lemma FileStepAppends(b: Batch, field: string, entry: FormEntry, i: nat, ctx: Context, o: Oracles)
    ensures var r := FileStep(b, field, entry, i, ctx, o);
      && Appends(b.uploaded, r.uploaded, if entry.FormFile? && o.uploadOk(i) then 1 else 0, KeptFolder)
      && RowsFollow(b, r)
      && r.waits == b.waits
  {
    if entry.FormFile? {
      var key := ObjectKey(KeyPrefix(field), o.stem(i), entry.name);
      assert StartsWith(key, KeyPrefix(field) + "/");
      StoreStepAppends(b, entry.name, key, entry.bytes, ContentTypeOr(entry.mimeType), i, ctx, o, KeptFolder);
    }
  }

  /** Storing one item under a key that `ok` accepts appends that item when the upload works, and nothing else. */
  lemma StoreStepAppends(b: Batch, source: string, key: string, body: seq<byte>, contentType: string,
                         i: nat, ctx: Context, o: Oracles, ok: string -> bool)
    requires ok(key)
    ensures var r := StoreStep(b, source, key, body, contentType, i, ctx, o);
      && Appends(b.uploaded, r.uploaded, if o.uploadOk(i) then 1 else 0, ok)
      && RowsFollow(b, r)
      && r.waits == b.waits
  {
    if o.uploadOk(i) {
      var r := StoreStep(b, source, key, body, contentType, i, ctx, o);
      assert r.uploaded[|b.uploaded|].key == key;
    }
  }

  /** The multipart loop reports exactly one item per stored file, each in "uploads/" or "generated/", after the items it started with. */
  lemma MultipartAppends(b: Batch, entries: seq<(string, FormEntry)>, n: nat, ctx: Context, o: Oracles)
    requires n <= |entries|
    ensures Appends(b.uploaded, MultipartFrom(b, entries, n, ctx, o).uploaded, Count(FileStored(entries, o), n), KeptFolder)
  {
    var step := FileStepAt(entries, ctx, o);
    forall p: Batch, i: nat | i < n
      ensures Appends(p.uploaded, step(p, i).uploaded, if FileStored(entries, o)(i) then 1 else 0, KeptFolder)
    {
      FileStepAppends(p, entries[i].0, entries[i].1, i, ctx, o);
    }
    LoopAppends(b, n, step, FileStored(entries, o), KeptFolder);
  }

  /** The multipart loop only appends rows, at most one per reported item, and never sleeps. */
  lemma MultipartRows(b: Batch, entries: seq<(string, FormEntry)>, n: nat, ctx: Context, o: Oracles)
    requires n <= |entries|
    ensures var r := MultipartFrom(b, entries, n, ctx, o);
      RowsFollow(b, r) && r.waits == b.waits
  {
    var step := FileStepAt(entries, ctx, o);
    forall p: Batch, i: nat | i < n
      ensures RowsFollow(p, step(p, i)) && step(p, i).waits == p.waits
    {
      FileStepAppends(p, entries[i].0, entries[i].1, i, ctx, o);
    }
    LoopRows(b, n, step);
    LoopNoSleep(b, n, step);
  }

  /** A file under field "original" is stored in "uploads/"; a file under any other field in "generated/". */
  lemma OriginalFieldGoesToUploads(b: Batch, field: string, entry: FormEntry, i: nat, ctx: Context, o: Oracles)
    requires entry.FormFile? && o.uploadOk(i)
    ensures var r := FileStep(b, field, entry, i, ctx, o);
      && |r.uploaded| == |b.uploaded| + 1
      && (field == "original" ==> StartsWith(r.uploaded[|b.uploaded|].key, "uploads/"))
      && (field != "original" ==> StartsWith(r.uploaded[|b.uploaded|].key, "generated/"))
      && r.uploaded[|b.uploaded|].source == entry.name
  {
  }

  /** A file whose upload fails, and a text field, leave the batch exactly as it was. */
  lemma FailedOrTextEntryIsSkipped(b: Batch, field: string, entry: FormEntry, i: nat, ctx: Context, o: Oracles)
    requires !entry.FormFile? || !o.uploadOk(i)
    ensures FileStep(b, field, entry, i, ctx, o) == b
  {
  }

  /** A stored file whose insert fails is still reported, without an insert id and without a row. */
  lemma FailedInsertIsStillReported(b: Batch, field: string, entry: FormEntry, i: nat, ctx: Context, o: Oracles)
    requires entry.FormFile? && o.uploadOk(i) && o.insertId(i).None?
    ensures var key := ObjectKey(KeyPrefix(field), o.stem(i), entry.name);
      var r := FileStep(b, field, entry, i, ctx, o);
      && r.uploaded == b.uploaded + [UploadedItem(entry.name, key, None)]
      && r.rows == b.rows
      && key in r.objects && r.objects[key] == entry.bytes
  {
  }

  /** One URL appends one item, in "generated/", exactly when it is fetched with an OK answer and uploaded; at most one row. */
  lemma UrlStepAppends(b: Batch, item: JsValue, i: nat, ctx: Context, o: Oracles)
    ensures var r := UrlStep(b, item, i, ctx, o);
      && Appends(b.uploaded, r.uploaded,
                 if item.JStr? && RetryFrom(3, o.fetch(i), 1).result.Got? && o.uploadOk(i) then 1 else 0, InGenerated)
      && RowsFollow(b, r)
  {
    var t := RetryFrom(3, o.fetch(i), 1);
    if item.JStr? && t.result.Got? {
      var key := ObjectKey("generated", o.stem(i), item.s);
      assert StartsWith(key, "generated/");
      StoreStepAppends(b.(waits := b.waits + t.delays), item.s, key, t.result.res.body,
                       ContentTypeOr(t.result.res.contentType), i, ctx, o, InGenerated);
    }
  }

  /**
   * The JSON loop goes on past failures: it reports exactly one item per URL that was
   * fetched and uploaded, all of them in "generated/", whatever happened to the others.
   */
  lemma JsonAppends(b: Batch, items: seq<JsValue>, n: nat, ctx: Context, o: Oracles)
    requires n <= |items|
    ensures Appends(b.uploaded, JsonFrom(b, items, n, ctx, o).uploaded, Count(UrlStored(items, o), n), InGenerated)
  {
    var step := UrlStepAt(items, ctx, o);
    forall p: Batch, i: nat | i < n
      ensures Appends(p.uploaded, step(p, i).uploaded, if UrlStored(items, o)(i) then 1 else 0, InGenerated)
    {
      UrlStepAppends(p, items[i], i, ctx, o);
    }
    LoopAppends(b, n, step, UrlStored(items, o), InGenerated);
  }

  /** The JSON loop only appends rows, at most one per reported item. */
  lemma JsonRows(b: Batch, items: seq<JsValue>, n: nat, ctx: Context, o: Oracles)
    requires n <= |items|
    ensures RowsFollow(b, JsonFrom(b, items, n, ctx, o))
  {
    var step := UrlStepAt(items, ctx, o);
    forall p: Batch, i: nat | i < n
      ensures RowsFollow(p, step(p, i))
    {
      UrlStepAppends(p, items[i], i, ctx, o);
    }
    LoopRows(b, n, step);
  }

  /** A URL whose fetch ends without an OK answer, or an entry that is not a string, changes nothing but the sleeps. */
  lemma FailedFetchIsSkipped(b: Batch, item: JsValue, i: nat, ctx: Context, o: Oracles)
    requires !item.JStr? || !RetryFrom(3, o.fetch(i), 1).result.Got?
    ensures UrlStep(b, item, i, ctx, o) == b.(waits := b.waits + RetryFrom(3, o.fetch(i), 1).delays)
  {
  }

  // ---------------------------------------------------------------- the route

  /** The request: its Content-Type header, its form entries in order, and its JSON body (None when unparsable). */
  datatype UploadRequest = UploadRequest(contentType: string, entries: seq<(string, FormEntry)>, json: Option<JsValue>)

  datatype UploadReply = UploadedReply(uploaded: seq<UploadedItem>) | ErrorReply(status: int, error: string)

  /** `formData.get(name)`: the first entry with that name. */
  function FirstEntry(entries: seq<(string, FormEntry)>, name: string): (r: Option<FormEntry>)
    ensures r.Some? ==> exists j :: 0 <= j < |entries| && entries[j] == (name, r.value)
                                 && forall i :: 0 <= i < j ==> entries[i].0 != name
    ensures r.None? ==> forall j :: 0 <= j < |entries| ==> entries[j].0 != name
  {
    if entries == [] then None
    else if entries[0].0 == name then Some(entries[0].1)
    else
      var r := FirstEntry(entries[1..], name);
      assert forall j :: 0 <= j < |entries| - 1 ==> entries[1..][j] == entries[j + 1];
      if r.Some? then
        var j :| 0 <= j < |entries| - 1 && entries[1..][j] == (name, r.value)
                 && forall i :: 0 <= i < j ==> entries[1..][i].0 != name;
        assert entries[j + 1] == (name, r.value);
        assert forall i :: 0 <= i < j + 1 ==> entries[i].0 != name by {
          forall i | 0 <= i < j + 1 ensures entries[i].0 != name {
            if i > 0 { assert entries[i] == entries[1..][i - 1]; }
          }
        }
        r
      else r
  }

  /** A form value as a JavaScript value: text, or a File. */
  function FormValue(e: Option<FormEntry>): (r: JsValue)
    ensures e.None? ==> r == JNull
  {
    match e
    case None => JNull
    case Some(FormText(s)) => JStr(s)
    case Some(FormFile(_, _, _)) => JObj(map[])
  }

  /** String(v) for a form value: a File reads "[object File]". */
  function FormString(e: FormEntry): string {
    match e
    case FormText(s) => s
    case FormFile(_, _, _) => "[object File]"
  }

  /** The multipart branch's row values: `productId ? Number(productId) : null` and `guarda ? String(guarda) : null`. */
  function MultipartContext(userId: JsValue, entries: seq<(string, FormEntry)>, bucket: Option<string>,
                            region: Option<string>): (ctx: Context)
    ensures ctx.userId == Coalesce(userId, JNull) && ctx.bucket == bucket && ctx.region == region
    ensures !Truthy(FormValue(FirstEntry(entries, "productId"))) ==> ctx.productId == JNull
    ensures var e := FirstEntry(entries, "productId");
      Truthy(FormValue(e)) ==> e.Some? && ctx.productId == JNum(StringToNumber(FormString(e.value)))
    ensures !Truthy(FormValue(FirstEntry(entries, "guarda_resultado"))) ==> ctx.guarda == JNull
    ensures var e := FirstEntry(entries, "guarda_resultado");
      Truthy(FormValue(e)) ==> e.Some? && ctx.guarda == JStr(FormString(e.value))
  {
    var product := FirstEntry(entries, "productId");
    var guarda := FirstEntry(entries, "guarda_resultado");
    Context(Coalesce(userId, JNull),
            if Truthy(FormValue(product)) then JNum(StringToNumber(FormString(product.value))) else JNull,
            if Truthy(FormValue(guarda)) then JStr(FormString(guarda.value)) else JNull,
            bucket, region)
  }

  /** The JSON branch's row values: `body.productId ?? null` and `body.guarda_resultado ?? null`. */
  function JsonContext(userId: JsValue, body: JsValue, bucket: Option<string>, region: Option<string>): (ctx: Context)
    ensures !ctx.userId.JUndefined? && !ctx.productId.JUndefined? && !ctx.guarda.JUndefined?
    ensures ctx.bucket == bucket && ctx.region == region
    ensures IsNullish(userId) ==> ctx.userId == JNull
    ensures !IsNullish(userId) ==> ctx.userId == userId
    ensures IsNullish(Get(body, "productId")) ==> ctx.productId == JNull
    ensures !IsNullish(Get(body, "productId")) ==> ctx.productId == Get(body, "productId")
    ensures IsNullish(Get(body, "guarda_resultado")) ==> ctx.guarda == JNull
    ensures !IsNullish(Get(body, "guarda_resultado")) ==> ctx.guarda == Get(body, "guarda_resultado")
  {
    Context(Coalesce(userId, JNull), Coalesce(Get(body, "productId"), JNull),
            Coalesce(Get(body, "guarda_resultado"), JNull), bucket, region)
  }

  /** `body.images || []`, refused (None) unless it is a non-empty array. */
  function ImagesOf(body: JsValue): (r: Option<seq<JsValue>>)
    ensures r.Some? ==> r.value != [] && Get(body, "images") == JArr(r.value)
    ensures r.None? ==> !Get(body, "images").JArr? || Get(body, "images").items == []
  {
    var images := if Truthy(Get(body, "images")) then Get(body, "images") else JArr([]);
    if !images.JArr? || images.items == [] then None else Some(images.items)
  }

  /** The route with its bucket and its `prueba_virtual` table. */
  class UploadsApi {
    const store: ObjectStore
    const trials: TrialTable

    constructor (store: ObjectStore, trials: TrialTable)
      ensures this.store == store && this.trials == trials
    {
      this.store := store;
      this.trials := trials;
    }

    /** The state of the bucket and the table, with a batch's answer and sleeps. */
    function Snapshot(uploaded: seq<UploadedItem>, waits: seq<nat>): Batch
      reads store, trials
    {
      Batch(uploaded, store.objects, store.contentTypes, trials.rows, waits)
    }

    /** Upload one object and record it (StoreStep). */
    method StoreItem(source: string, key: string, body: seq<byte>, contentType: string, i: nat,
                     ctx: Context, o: Oracles, uploaded: seq<UploadedItem>, waits: seq<nat>)
      returns (uploaded': seq<UploadedItem>)
      modifies store, trials
      ensures Snapshot(uploaded', waits) == StoreStep(old(Snapshot(uploaded, waits)), source, key, body, contentType, i, ctx, o)
    {
      uploaded' := uploaded;
      var ok := store.Upload(key, body, contentType, o.uploadOk(i));
      if !ok {
        return;
      }
      var id := trials.Insert(TrialRow(ctx.userId, ctx.productId, ResultUrl(ctx, key), ctx.guarda), o.insertId(i));
      uploaded' := uploaded + [UploadedItem(source, key, id)];
    }

    /** The multipart loop: every file entry is stored in turn, failures are skipped. */
    method MultipartBatch(entries: seq<(string, FormEntry)>, ctx: Context, o: Oracles) returns (uploaded: seq<UploadedItem>)
      modifies store, trials
      ensures Snapshot(uploaded, []) == MultipartFrom(old(Snapshot([], [])), entries, |entries|, ctx, o)
    {
      uploaded := [];
      var i := 0;
      while i < |entries|
        invariant 0 <= i <= |entries|
        invariant Snapshot(uploaded, []) == MultipartFrom(old(Snapshot([], [])), entries, i, ctx, o)
      {
        var field := entries[i].0;
        var entry := entries[i].1;
        if entry.FormFile? {
          uploaded := StoreItem(entry.name, ObjectKey(KeyPrefix(field), o.stem(i), entry.name), entry.bytes,
                                ContentTypeOr(entry.mimeType), i, ctx, o, uploaded, []);
        }
        i := i + 1;
      }
    }

    /** The JSON loop: every URL is fetched with three attempts and stored when the fetch gave an OK answer. */
    method JsonBatch(items: seq<JsValue>, ctx: Context, o: Oracles) returns (uploaded: seq<UploadedItem>, waits: seq<nat>)
      modifies store, trials
      ensures Snapshot(uploaded, waits) == JsonFrom(old(Snapshot([], [])), items, |items|, ctx, o)
    {
      uploaded, waits := [], [];
      ghost var start := Snapshot([], []);
      var i := 0;
      while i < |items|
        invariant 0 <= i <= |items|
        invariant Snapshot(uploaded, waits) == JsonFrom(start, items, i, ctx, o)
      {
        uploaded, waits := FetchItem(items[i], i, ctx, o, uploaded, waits);
        JsonFromStep(start, items, i, ctx, o);
        i := i + 1;
      }
    }

    /** Fetch URL i with three attempts and store what came back (UrlStep). */
    method FetchItem(item: JsValue, i: nat, ctx: Context, o: Oracles, uploaded: seq<UploadedItem>, waits: seq<nat>)
      returns (uploaded': seq<UploadedItem>, waits': seq<nat>)
      modifies store, trials
      ensures Snapshot(uploaded', waits') == UrlStep(old(Snapshot(uploaded, waits)), item, i, ctx, o)
    {
      var t := FetchWithRetries(3, o.fetch(i));
      uploaded', waits' := uploaded, waits + t.delays;
      if item.JStr? && t.result.Got? {
        uploaded' := StoreItem(item.s, ObjectKey("generated", o.stem(i), item.s), t.result.res.body,
                               ContentTypeOr(t.result.res.contentType), i, ctx, o, uploaded, waits');
      }
    }

    /**
     * POST: a multipart request runs the file loop; otherwise the JSON body must list a
     * non-empty `images` array (400 if not). An unparsable or null body is a 500.
     */
    method Post(req: UploadRequest, userId: JsValue, bucket: Option<string>, region: Option<string>, o: Oracles)
      returns (reply: UploadReply, waits: seq<nat>)
      modifies store, trials
      ensures Contains(req.contentType, "multipart/form-data") ==>
                var r := MultipartFrom(old(Snapshot([], [])), req.entries, |req.entries|,
                                       MultipartContext(userId, req.entries, bucket, region), o);
                reply == UploadedReply(r.uploaded) && Snapshot(r.uploaded, waits) == r
      ensures !Contains(req.contentType, "multipart/form-data") && (req.json.None? || req.json == Some(JNull)) ==>
                reply == ErrorReply(500, "Internal server error") && unchanged(store, trials)
      ensures !Contains(req.contentType, "multipart/form-data") && req.json.Some? && req.json != Some(JNull)
              && ImagesOf(req.json.value).None? ==>
                reply == ErrorReply(400, "No images provided") && unchanged(store, trials)
      ensures !Contains(req.contentType, "multipart/form-data") && req.json.Some? && req.json != Some(JNull)
              && ImagesOf(req.json.value).Some? ==>
                var r := JsonFrom(old(Snapshot([], [])), ImagesOf(req.json.value).value, |ImagesOf(req.json.value).value|,
                                  JsonContext(userId, req.json.value, bucket, region), o);
                reply == UploadedReply(r.uploaded) && Snapshot(r.uploaded, waits) == r
    {
      waits := [];
      if Contains(req.contentType, "multipart/form-data") {
        var uploaded := MultipartBatch(req.entries, MultipartContext(userId, req.entries, bucket, region), o);
        return UploadedReply(uploaded), waits;
      }
      if req.json.None? || req.json == Some(JNull) {
        return ErrorReply(500, "Internal server error"), waits;
      }
      var body := req.json.value;
      var images := ImagesOf(body);
      if images.None? {
        return ErrorReply(400, "No images provided"), waits;
      }
      var uploaded;
      uploaded, waits := JsonBatch(images.value, JsonContext(userId, body, bucket, region), o);
      reply := UploadedReply(uploaded);
    }
  }
}
