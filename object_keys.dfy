/**
 * Object-store keys and URLs shared by the avatar and upload routes: the file-extension
 * rule, the public S3 URL of a key, the inverse that recovers the key from such a URL,
 * and the bucket itself.
 */
module ObjectKeys {
  import opened Common
  import opened Js
  import opened Base64

  // ---------------------------------------------------------------- extensions

  predicate IsAlnum(c: char) {
    'a' <= c <= 'z' || 'A' <= c <= 'Z' || '0' <= c <= '9'
  }

  /** The length of the run of letters and digits starting at `j`. */
  function AlnumRun(s: string, j: nat): (k: nat)
    requires j <= |s|
    ensures j + k <= |s|
    ensures forall t :: j <= t < j + k ==> IsAlnum(s[t])
    ensures j + k < |s| ==> !IsAlnum(s[j + k])
    decreases |s| - j
  {
    if j == |s| || !IsAlnum(s[j]) then 0 else 1 + AlnumRun(s, j + 1)
  }

  /**
   * Whether `/\.([a-zA-Z0-9]{2,5})(?:\?|$)/` matches at `i`: a '.', then a run of 2 to 5
   * letters or digits that ends the string or is followed by '?'.
   */
  predicate ExtensionAt(s: string, i: nat) {
    i < |s| && s[i] == '.'
    && var k := AlnumRun(s, i + 1);
    2 <= k <= 5 && (i + 1 + k == |s| || s[i + 1 + k] == '?')
  }

  /** The leftmost match position at or after `i`, or |s| when there is none. */
  function FirstExtensionAt(s: string, i: nat): (p: nat)
    requires i <= |s|
    ensures i <= p <= |s|
    ensures p < |s| ==> ExtensionAt(s, p)
    ensures forall q :: i <= q < p ==> !ExtensionAt(s, q)
    decreases |s| - i
  {
    if i == |s| || ExtensionAt(s, i) then i else FirstExtensionAt(s, i + 1)
  }

  /** The extension the upload routes give a stored object: the first match, or "jpg". */
  function ExtensionOf(name: string): (r: string)
    ensures r == "jpg" || (2 <= |r| <= 5 && forall t :: 0 <= t < |r| ==> IsAlnum(r[t]))
    ensures (forall q :: 0 <= q < |name| ==> !ExtensionAt(name, q)) ==> r == "jpg"
  {
    var p := FirstExtensionAt(name, 0);
    if p == |name| then "jpg"
    else
      var k := AlnumRun(name, p + 1);
      name[p + 1..p + 1 + k]
  }

  /** The leftmost match decides: its run of letters and digits is the extension. */
  lemma ExtensionOfLeftmostMatch(name: string, i: nat)
    requires ExtensionAt(name, i) && forall q :: 0 <= q < i ==> !ExtensionAt(name, q)
    ensures ExtensionOf(name) == name[i + 1..i + 1 + AlnumRun(name, i + 1)]
  {
    var p := FirstExtensionAt(name, 0);
    if p < i {
      assert false;
    } else if p > i {
      assert false;
    }
  }

  /**
   * When the pattern matches at `i` after a dot-free prefix, that match is the leftmost and
   * its run is the extension.
   */
  lemma ExtensionAfterDotFreePrefix(s: string, i: nat, ext: string)
    requires i < |s| && s[i] == '.' && forall t :: 0 <= t < i ==> s[t] != '.'
    requires 2 <= |ext| <= 5 && forall t :: 0 <= t < |ext| ==> IsAlnum(ext[t])
    requires i + 1 + |ext| <= |s| && s[i + 1..i + 1 + |ext|] == ext
    requires i + 1 + |ext| == |s| || s[i + 1 + |ext|] == '?'
    ensures ExtensionOf(s) == ext
  {
    RunOverAlnum(s, i + 1, ext);
    assert ExtensionAt(s, i);
    forall q | 0 <= q < i ensures !ExtensionAt(s, q) {
      assert s[q] != '.';
    }
    ExtensionOfLeftmostMatch(s, i);
  }

  /** A name without dots ending in ".ext", possibly followed by a query, has extension `ext`. */
  lemma ExtensionOfSuffix(base: string, ext: string, query: string)
    requires forall t :: 0 <= t < |base| ==> base[t] != '.'
    requires 2 <= |ext| <= 5 && forall t :: 0 <= t < |ext| ==> IsAlnum(ext[t])
    ensures ExtensionOf(base + "." + ext) == ext
    ensures ExtensionOf(base + "." + ext + "?" + query) == ext
  {
    ExtensionBeforeRest(base, ext, "");
    assert base + "." + ext + "" == base + "." + ext;
    ExtensionBeforeRest(base, ext, "?" + query);
    assert base + "." + ext + ("?" + query) == base + "." + ext + "?" + query;
  }

  lemma ExtensionBeforeRest(base: string, ext: string, rest: string)
    requires forall t :: 0 <= t < |base| ==> base[t] != '.'
    requires 2 <= |ext| <= 5 && forall t :: 0 <= t < |ext| ==> IsAlnum(ext[t])
    requires rest == [] || rest[0] == '?'
    ensures ExtensionOf(base + "." + ext + rest) == ext
  {
    var s := base + "." + ext + rest;
    var i := |base|;
    assert s[i + 1..i + 1 + |ext|] == ext;
    assert forall t :: 0 <= t < i ==> s[t] == base[t];
    if rest != [] {
      assert s[i + 1 + |ext|] == rest[0];
    }
    ExtensionAfterDotFreePrefix(s, i, ext);
  }

  lemma {:induction false} RunOverAlnum(s: string, j: nat, ext: string)
    requires j + |ext| <= |s| && s[j..j + |ext|] == ext
    requires forall t :: 0 <= t < |ext| ==> IsAlnum(ext[t])
    requires j + |ext| == |s| || !IsAlnum(s[j + |ext|])
    ensures AlnumRun(s, j) == |ext|
    decreases |ext|
  {
    if ext != [] {
      assert s[j] == ext[0];
      assert s[j + 1..j + 1 + |ext[1..]|] == ext[1..];
      RunOverAlnum(s, j + 1, ext[1..]);
    }
  }

  // ---------------------------------------------------------------- URLs

  const Marker: string := "amazonaws.com/"

  /** `https://${bucket}.s3.${region}.amazonaws.com/`. */
  function S3Host(bucket: string, region: string): string {
    "https://" + bucket + ".s3." + region + ".amazonaws.com/"
  }

  /** `https://${bucket}.s3.${region}.amazonaws.com/${key}`. */
  function S3Url(bucket: string, region: string, key: string): string {
    S3Host(bucket, region) + key
  }

  predicate NoLineTerminator(s: string) {
    forall t :: 0 <= t < |s| ==> !IsLineTerminator(s[t])
  }

  /**
   * Whether `/amazonaws\.com\/(.+)$/` matches at `i`: the marker, then at least one
   * character and no line terminator up to the end.
   */
  predicate KeyAt(s: string, i: nat) {
    i + |Marker| < |s| && s[i..i + |Marker|] == Marker && NoLineTerminator(s[i + |Marker|..])
  }

  function FirstKeyAt(s: string, i: nat): (p: nat)
    requires i <= |s|
    ensures i <= p <= |s|
    ensures p < |s| ==> KeyAt(s, p)
    ensures forall q :: i <= q < p ==> !KeyAt(s, q)
    decreases |s| - i
  {
    if i == |s| || KeyAt(s, i) then i else FirstKeyAt(s, i + 1)
  }

  /** extractKeyFromUrl: the text after the leftmost matching marker, or None. */
  function ExtractKeyFromUrl(url: Option<string>): (r: Option<string>)
    ensures url.None? || url == Some("") ==> r.None?
    ensures url.Some? ==> (r.Some? <==> exists p :: 0 <= p && KeyAt(url.value, p))
    ensures r.Some? ==> (r.value != "" && NoLineTerminator(r.value)
      && exists p :: 0 <= p && KeyAt(url.value, p) && (forall q :: 0 <= q < p ==> !KeyAt(url.value, q))
                     && r.value == url.value[p + |Marker|..])
  {
    if url.None? || url.value == "" then None
    else
      var s := url.value;
      var p := FirstKeyAt(s, 0);
      if p == |s| then None else Some(s[p + |Marker|..])
  }

  /** The key of any URL built by S3Url is recovered exactly, for a bucket and region without '/'. */
  lemma ExtractKeyInvertsS3Url(bucket: string, region: string, key: string)
    requires forall t :: 0 <= t < |bucket| ==> bucket[t] != '/'
    requires forall t :: 0 <= t < |region| ==> region[t] != '/'
    requires key != "" && NoLineTerminator(key)
    ensures ExtractKeyFromUrl(Some(S3Url(bucket, region, key))) == Some(key)
  {
    var url := S3Url(bucket, region, key);
    var host := S3Host(bucket, region);
    var m := |host| - |Marker|;
    assert host[m..] == Marker;
    assert url[m..m + |Marker|] == Marker;
    assert url[m + |Marker|..] == key;
    assert KeyAt(url, m);
    HostHasNoInnerSlash(bucket, region);
    forall q | 0 <= q < m ensures !KeyAt(url, q) {
      assert url[q + 13] == host[q + 13];
      assert Marker[13] == '/';
    }
    assert FirstKeyAt(url, 0) == m;
  }

  /** Between "https://" and its final '/', the host holds no '/' when the bucket and region hold none. */
  lemma HostHasNoInnerSlash(bucket: string, region: string)
    requires forall t :: 0 <= t < |bucket| ==> bucket[t] != '/'
    requires forall t :: 0 <= t < |region| ==> region[t] != '/'
    ensures var host := S3Host(bucket, region);
      forall t :: 8 <= t < |host| - 1 ==> host[t] != '/'
  {
    var host := S3Host(bucket, region);
    var mid := bucket + ".s3." + region + ".amazonaws.com";
    assert host == "https://" + mid + "/";
    forall t | 8 <= t < |host| - 1 ensures host[t] != '/' {
      assert host[t] == mid[t - 8];
      if t - 8 < |bucket| {
        assert mid[t - 8] == bucket[t - 8];
      } else if t - 8 < |bucket| + 4 {
      } else if t - 8 < |bucket| + 4 + |region| {
        assert mid[t - 8] == region[t - 8 - |bucket| - 4];
      }
    }
  }

  // ---------------------------------------------------------------- keys

  /** Printable ASCII without space: none of these is a line terminator. */
  predicate IsVisibleAscii(s: string) {
    forall t :: 0 <= t < |s| ==> 0x21 <= s[t] as int <= 0x7E
  }

  lemma VisibleHasNoLineTerminator(s: string)
    requires IsVisibleAscii(s)
    ensures NoLineTerminator(s)
  {
  }

  lemma {:induction false} NatToStringVisible(n: nat)
    ensures IsVisibleAscii(NatToString(n))
  {
    if n >= 10 {
      NatToStringVisible(n / 10);
    }
  }

  lemma {:induction false} FractionDigitsVisible(f: real, k: nat)
    requires 0.0 <= f < 1.0
    ensures IsVisibleAscii(FractionDigits(f, k))
    decreases k
  {
    if k != 0 && f != 0.0 {
      var d := (f * 10.0).Floor;
      FractionDigitsVisible(f * 10.0 - d as real, k - 1);
    }
  }

  lemma VisibleAppend(a: string, b: string)
    requires IsVisibleAscii(a) && IsVisibleAscii(b)
    ensures IsVisibleAscii(a + b)
  {
    assert forall t :: |a| <= t < |a + b| ==> (a + b)[t] == b[t - |a|];
  }

  lemma UnsignedRealToStringVisible(x: real)
    requires x >= 0.0
    ensures IsVisibleAscii(UnsignedRealToString(x))
  {
    DecimalTextVisible(x.Floor, x - x.Floor as real);
  }

  lemma DecimalTextVisible(whole: nat, frac: real)
    requires 0.0 <= frac < 1.0
    ensures IsVisibleAscii(DecimalText(whole, frac))
  {
    NatToStringVisible(whole);
    if frac != 0.0 {
      FractionDigitsVisible(frac, 20);
      VisibleAppend(".", FractionDigits(frac, 20));
      VisibleAppend(NatToString(whole), "." + FractionDigits(frac, 20));
    } else {
      assert DecimalText(whole, frac) == NatToString(whole) + "";
      assert NatToString(whole) + "" == NatToString(whole);
    }
  }

  lemma FiniteToStringVisible(r: real)
    ensures IsVisibleAscii(NumberToString(Fin(r)))
  {
    UnsignedRealToStringVisible(Magnitude(r));
    VisibleAppend(if r < 0.0 then "-" else "", UnsignedRealToString(Magnitude(r)));
  }

  /** String() of a number is made of visible ASCII characters. */
  lemma NumberToStringVisible(n: Num)
    ensures IsVisibleAscii(NumberToString(n))
  {
    match n
    case NaN =>
      assert NumberToString(n) == ['N', 'a', 'N'];
    case PosInf =>
      assert NumberToString(n) == ['I', 'n', 'f', 'i', 'n', 'i', 't', 'y'];
    case NegInf =>
      assert NumberToString(n) == ['-', 'I', 'n', 'f', 'i', 'n', 'i', 't', 'y'];
    case Fin(r) =>
      FiniteToStringVisible(r);
  }

  /**
   * The avatar object key `avatars/${userId}_${stem}.${extension}`, where `stem` stands for
   * the clock reading and random suffix the route draws.
   */
  function AvatarKey(userId: real, stem: string, fileName: string): (key: string)
    ensures var head := "avatars/" + NumberToString(Fin(userId)) + "_";
      && StartsWith(key, head)
      && |key| == |head| + |stem| + 1 + |ExtensionOf(fileName)|
      && key[|head|..|head| + |stem|] == stem
      && key[|head| + |stem|..] == "." + ExtensionOf(fileName)
  {
    var head := "avatars/" + NumberToString(Fin(userId)) + "_";
    var key := head + stem + ("." + ExtensionOf(fileName));
    assert key[..|head|] == head;
    assert key[|head|..|head| + |stem|] == stem;
    key
  }

  /**
   * The stored object keeps the upload's extension: for a dot-free user id and stem, the
   * avatar key's own extension is the file name's.
   */
  lemma AvatarKeyKeepsExtension(userId: real, stem: string, fileName: string)
    requires forall t :: 0 <= t < |NumberToString(Fin(userId))| ==> NumberToString(Fin(userId))[t] != '.'
    requires forall t :: 0 <= t < |stem| ==> stem[t] != '.'
    ensures ExtensionOf(AvatarKey(userId, stem, fileName)) == ExtensionOf(fileName)
  {
    var id := NumberToString(Fin(userId));
    var base := "avatars/" + id + "_" + stem;
    forall t | 0 <= t < |base| ensures base[t] != '.' {
      if t < 8 {
      } else if t < 8 + |id| {
        assert base[t] == id[t - 8];
      } else if t > 8 + |id| {
        assert base[t] == stem[t - 9 - |id|];
      }
    }
    var ext := ExtensionOf(fileName);
    if ext == "jpg" {
      assert forall t :: 0 <= t < |ext| ==> IsAlnum(ext[t]);
    }
    ExtensionOfSuffix(base, ext, "");
    assert AvatarKey(userId, stem, fileName) == ("avatars/" + id + "_") + stem + ("." + ext);
    assert ("avatars/" + id + "_") + stem + ("." + ext) == base + "." + ext;
  }

  /** The URL of an uploaded avatar always gives back its key. */
  lemma AvatarUrlGivesBackKey(bucket: string, region: string, userId: real, stem: string, fileName: string)
    requires forall t :: 0 <= t < |bucket| ==> bucket[t] != '/'
    requires forall t :: 0 <= t < |region| ==> region[t] != '/'
    requires NoLineTerminator(stem)
    ensures ExtractKeyFromUrl(Some(S3Url(bucket, region, AvatarKey(userId, stem, fileName)))) == Some(AvatarKey(userId, stem, fileName))
  {
    var key := AvatarKey(userId, stem, fileName);
    var id := NumberToString(Fin(userId));
    var ext := ExtensionOf(fileName);
    NumberToStringVisible(Fin(userId));
    assert key == ("avatars/" + id + "_") + stem + ("." + ext);
    forall t | 0 <= t < |key| ensures !IsLineTerminator(key[t]) {
      if t < 8 {
      } else if t < 8 + |id| {
        assert key[t] == id[t - 8];
      } else if t == 8 + |id| {
      } else if t < 9 + |id| + |stem| {
        assert key[t] == stem[t - 9 - |id|];
      } else if t == 9 + |id| + |stem| {
      } else {
        assert key[t] == ext[t - 10 - |id| - |stem|];
      }
    }
    ExtractKeyInvertsS3Url(bucket, region, key);
  }

  // ---------------------------------------------------------------- the bucket

  /** The S3 bucket: object bodies and content types by key. */
  class ObjectStore {
    var objects: map<string, seq<byte>>
    var contentTypes: map<string, string>

    constructor ()
      ensures objects == map[] && contentTypes == map[]
    {
      objects := map[];
      contentTypes := map[];
    }

    /** uploadBufferToS3; `succeeds` is the outcome of the remote call. */
    method Upload(key: string, body: seq<byte>, contentType: string, succeeds: bool) returns (ok: bool)
      modifies this
      ensures ok == succeeds
      ensures ok ==> objects == old(objects)[key := body] && contentTypes == old(contentTypes)[key := contentType]
      ensures !ok ==> unchanged(this)
    {
      ok := succeeds;
      if ok {
        objects := objects[key := body];
        contentTypes := contentTypes[key := contentType];
      }
    }

    /** deleteObjectFromS3; `succeeds` is the outcome of the remote call. */
    method Delete(key: string, succeeds: bool) returns (ok: bool)
      modifies this
      ensures ok == succeeds
      ensures ok ==> objects == old(objects) - {key} && contentTypes == old(contentTypes) - {key}
      ensures !ok ==> unchanged(this)
    {
      ok := succeeds;
      if ok {
        objects := objects - {key};
        contentTypes := contentTypes - {key};
      }
    }
  }
}
