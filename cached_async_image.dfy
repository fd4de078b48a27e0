/**
 * The image view's loading decisions and the shared in-memory image cache.
 * Network, Storage SDK and image decoding outcomes are parameters.
 */
module CachedAsyncImage {
  import opened Wrappers
  import opened Strings

  type Bytes = seq<int>

  /** A decoded image; only its identity matters here. */
  datatype Image = Image(pixels: Bytes)

  /** A URL, reduced to what the loader reads: its text and its host (if any). */
  datatype Url = Url(absoluteString: string, host: Option<string>)

  datatype LoadError = InvalidResponse | HttpError(code: int) | Unknown | Failed(reason: string)

  /** What `URLSession.data(from:)` returned: an HTTP response, some other response, or a thrown error. */
  datatype SessionReply = HttpReply(statusCode: int, data: Bytes) | OtherReply(data: Bytes)

  const MaxCacheSize: nat := 50

  // ---------------------------------------------------------------------------
  // The cache map after `setImage`, given which key `keys.first` happened to be.

  /** A key that `keys.first` may return: any key when the map is full; unused otherwise. */
  predicate Evictable(c: map<string, Image>, evicted: string) {
    |c| >= MaxCacheSize ==> evicted in c
  }

  function AfterSet(c: map<string, Image>, key: string, image: Image, evicted: string): (r: map<string, Image>)
    requires Evictable(c, evicted)
  {
    if |c| >= MaxCacheSize then (c - {evicted})[key := image] else c[key := image]
  }

  /** After `setImage(img, k)`, `getImage(k)` is `img`. */
  lemma SetThenGet(c: map<string, Image>, key: string, image: Image, evicted: string)
    requires Evictable(c, evicted)
    ensures key in AfterSet(c, key, image, evicted) && AfterSet(c, key, image, evicted)[key] == image
  {
  }

  /** Below the cap nothing is evicted: every other entry stays as it was. */
  lemma SetBelowCapKeepsOthers(c: map<string, Image>, key: string, image: Image, evicted: string)
    requires |c| < MaxCacheSize && Evictable(c, evicted)
    ensures var r := AfterSet(c, key, image, evicted);
            r.Keys == c.Keys + {key} && forall k :: k in c && k != key ==> r[k] == c[k]
  {
  }

  /** At the cap exactly one existing key (possibly `key` itself) goes before `key` is stored. */
  lemma SetAtCapEvictsOne(c: map<string, Image>, key: string, image: Image, evicted: string)
    requires |c| >= MaxCacheSize && Evictable(c, evicted)
    ensures var r := AfterSet(c, key, image, evicted);
            evicted in c && r.Keys == (c.Keys - {evicted}) + {key} &&
            forall k :: k in c && k != key && k != evicted ==> r[k] == c[k]
  {
  }

  lemma {:induction false} KeysCardinality(c: map<string, Image>)
    ensures |c.Keys| == |c|
  {
    if |c| > 0 {
      var k :| k in c;
      var d := c - {k};
      KeysCardinality(d);
      assert c.Keys == d.Keys + {k};
      assert |c| == |d| + 1;
    }
  }

  lemma RemovePresentKey(c: map<string, Image>, k: string)
    requires k in c
    ensures |c - {k}| == |c| - 1
  {
    var d := c - {k};
    assert c.Keys == d.Keys + {k};
    assert |c.Keys| == |d.Keys| + 1;
    KeysCardinality(c);
    KeysCardinality(d);
  }

  lemma InsertKey(c: map<string, Image>, k: string, image: Image)
    ensures |c[k := image]| <= |c| + 1
  {
    var d := c[k := image];
    assert d.Keys == c.Keys + {k};
    assert |c.Keys + {k}| <= |c.Keys| + 1;
    KeysCardinality(c);
    KeysCardinality(d);
  }

  /** The cache never grows past 50 entries. */
  lemma SetKeepsBound(c: map<string, Image>, key: string, image: Image, evicted: string)
    requires |c| <= MaxCacheSize && Evictable(c, evicted)
    ensures |AfterSet(c, key, image, evicted)| <= MaxCacheSize
  {
    if |c| >= MaxCacheSize {
      RemovePresentKey(c, evicted);
      InsertKey(c - {evicted}, key, image);
    } else {
      InsertKey(c, key, image);
    }
  }

  /**
   * Eviction fires even when the key being stored is present: at the cap,
   * re-storing a present key with another key evicted shrinks the cache by one.
   */
  lemma ResetAtCapShrinks(c: map<string, Image>, key: string, image: Image, evicted: string)
    requires |c| >= MaxCacheSize && key in c && evicted in c && evicted != key
    ensures |AfterSet(c, key, image, evicted)| == |c| - 1
  {
    var r := AfterSet(c, key, image, evicted);
    KeysCardinality(c);
    KeysCardinality(r);
    assert r.Keys == c.Keys - {evicted};
  }

  /** The process-wide cache: a dictionary from key to image. */
  class ImageCache {
    var cache: map<string, Image>

    /** The cache holds at most 50 entries. */
    predicate Valid()
      reads this
    {
      |cache| <= MaxCacheSize
    }

    constructor()
      ensures cache == map[] && Valid()
    {
      cache := map[];
    }

    function GetImage(key: string): (r: Option<Image>)
      reads this
      ensures r.Some? <==> key in cache
      ensures r.Some? ==> r.value == cache[key]
    {
      if key in cache then Some(cache[key]) else None
    }

    /** Stores `image`; when 50 or more entries are held, first drops an unspecified key. */
    method SetImage(image: Image, key: string)
      modifies this
      ensures exists evicted :: Evictable(old(cache), evicted) && cache == AfterSet(old(cache), key, image, evicted)
      ensures old(Valid()) ==> Valid()
    {
      ghost var before := cache;
      var evicted := key;
      if |cache| >= MaxCacheSize {
        assert cache.Keys != {};
        evicted :| evicted in cache.Keys;
        cache := cache - {evicted};
        cache := cache[key := image];
      } else {
        cache := cache[key := image];
      }
      assert Evictable(old(cache), evicted);
      if |before| <= MaxCacheSize {
        SetKeepsBound(before, key, image, evicted);
      }
    }

    method RemoveImage(key: string)
      modifies this
      ensures cache == old(cache) - {key}
      ensures |cache| <= |old(cache)|
    {
      if key in cache {
        RemovePresentKey(cache, key);
      }
      cache := cache - {key};
    }

    method ClearCache()
      modifies this
      ensures cache == map[] && Valid()
    {
      cache := map[];
    }
  }

  // ---------------------------------------------------------------------------
  // Host detection and the download routing of `fetchImageData`.

  /** True iff the URL has a host whose lowercase form names a Firebase Storage domain. */
  predicate IsFirebaseStorageURL(url: Url) {
    url.host.Some? &&
    var h := Lower(url.host.value);
    Contains(h, "firebasestorage.googleapis.com") || Contains(h, "firebasestorage.app") || Contains(h, "appspot.com")
  }

  /** The host test is insensitive to the case of the host. */
  lemma FirebaseHostCaseInsensitive(s: string, h: string, h': string)
    requires Lower(h) == Lower(h')
    ensures IsFirebaseStorageURL(Url(s, Some(h))) == IsFirebaseStorageURL(Url(s, Some(h')))
  {
  }

  /** A URL without a host is never treated as Firebase Storage. */
  lemma NoHostIsNotFirebase(s: string)
    ensures !IsFirebaseStorageURL(Url(s, None))
  {
  }

  /** The three domains the host test looks for. */
  const FirebaseDomains: seq<string> := ["firebasestorage.googleapis.com", "firebasestorage.app", "appspot.com"]

  /** A host is a Firebase Storage host exactly when one of the domains occurs in its lower-case form. */
  lemma FirebaseHostIffDomainOccurs(s: string, h: string)
    ensures IsFirebaseStorageURL(Url(s, Some(h))) <==>
            exists k, i :: 0 <= k < |FirebaseDomains| && OccursAt(Lower(h), FirebaseDomains[k], i)
  {
    var l := Lower(h);
    ContainsIffOccurs(l, FirebaseDomains[0]);
    ContainsIffOccurs(l, FirebaseDomains[1]);
    ContainsIffOccurs(l, FirebaseDomains[2]);
    if exists k, i :: 0 <= k < |FirebaseDomains| && OccursAt(l, FirebaseDomains[k], i) {
      var k, i :| 0 <= k < |FirebaseDomains| && OccursAt(l, FirebaseDomains[k], i);
      assert k == 0 || k == 1 || k == 2;
    }
  }

  /** A host with `appspot.com` in it, written in any case, is a Firebase Storage host. */
  lemma AppspotHostIsFirebase(s: string, h: string, i: nat)
    requires i + 11 <= |h| && Lower(h[i..i + 11]) == "appspot.com"
    ensures IsFirebaseStorageURL(Url(s, Some(h)))
  {
    var l := Lower(h);
    assert l[i..i + 11] == Lower(h[i..i + 11]);
    assert OccursAt(l, "appspot.com", i);
    ContainsIffOccurs(l, "appspot.com");
  }

  /**
   * `fetchImageData`: `session` is what URLSession gave back, `sdk1` and `sdk2` what
   * the first and the second Storage SDK download (if made) gave back. Every error
   * raised inside the `do` block, including one from the SDK fallback after a 403,
   * reaches the `catch`, which falls back to the SDK for Firebase hosts.
   */
  function FetchImageData(url: Url, session: Result<SessionReply, LoadError>,
                          sdk1: Result<Bytes, LoadError>, sdk2: Result<Bytes, LoadError>): (r: Result<Bytes, LoadError>)
  {
    var firebase := IsFirebaseStorageURL(url);
    var inner: Result<Bytes, LoadError> :=
      match session
      case Err(e) => Err(e)
      case Ok(OtherReply(_)) => Err(InvalidResponse)
      case Ok(HttpReply(code, data)) =>
        if code == 403 && firebase then sdk1
        else if code != 200 then Err(HttpError(code))
        else Ok(data);
    var tried403 := session.Ok? && session.value.HttpReply? && session.value.statusCode == 403 && firebase;
    if inner.Ok? then inner
    else if firebase then (if tried403 then sdk2 else sdk1)
    else inner
  }

  /** A 200 response gives its body, whatever the host. */
  lemma FetchOkOn200(url: Url, data: Bytes, sdk1: Result<Bytes, LoadError>, sdk2: Result<Bytes, LoadError>)
    ensures FetchImageData(url, Ok(HttpReply(200, data)), sdk1, sdk2) == Ok(data)
  {
  }

  /** For other hosts nothing goes to the SDK: a non-200 status is `httpError(code)`, other failures pass through. */
  lemma FetchNonFirebase(url: Url, session: Result<SessionReply, LoadError>, sdk1: Result<Bytes, LoadError>, sdk2: Result<Bytes, LoadError>)
    requires !IsFirebaseStorageURL(url)
    ensures var r := FetchImageData(url, session, sdk1, sdk2);
            (session.Err? ==> r == Err(session.error)) &&
            (session.Ok? && session.value.OtherReply? ==> r == Err(InvalidResponse)) &&
            (session.Ok? && session.value.HttpReply? && session.value.statusCode != 200 ==>
               r == Err(HttpError(session.value.statusCode))) &&
            r == FetchImageData(url, session, Err(Unknown), Err(Unknown))
  {
  }

  /**
   * For Firebase hosts every path other than a 200 ends in an SDK download:
   * a 403 whose first SDK download fails retries the SDK once more.
   */
  lemma FetchFirebaseFallsBack(url: Url, session: Result<SessionReply, LoadError>, sdk1: Result<Bytes, LoadError>, sdk2: Result<Bytes, LoadError>)
    requires IsFirebaseStorageURL(url)
    requires !(session.Ok? && session.value.HttpReply? && session.value.statusCode == 200)
    ensures var r := FetchImageData(url, session, sdk1, sdk2);
            (r == sdk1 || r == sdk2) &&
            (sdk1.Ok? ==> r == sdk1) &&
            (session.Ok? && session.value.HttpReply? && session.value.statusCode == 403 && sdk1.Err? ==> r == sdk2)
  {
  }

  /** `download(from:)`: data wins, then the error, else `unknown`. */
  function Download(data: Option<Bytes>, error: Option<LoadError>): (r: Result<Bytes, LoadError>)
    ensures r.Ok? <==> data.Some?
    ensures r.Ok? ==> r.value == data.value
    ensures data.None? && error.Some? ==> r == Err(error.value)
    ensures data.None? && error.None? ==> r == Err(Unknown)
  {
    if data.Some? then Ok(data.value) else if error.Some? then Err(error.value) else Err(Unknown)
  }

  /** The key `loadImage` caches under: the Storage path, else the URL text, else a fresh UUID. */
  function CacheKey(storagePath: Option<string>, url: Option<Url>, uuid: string): (r: string)
    ensures storagePath.Some? ==> r == storagePath.value
    ensures storagePath.None? && url.Some? ==> r == url.value.absoluteString
    ensures storagePath.None? && url.None? ==> r == uuid
  {
    storagePath.GetOr(if url.Some? then url.value.absoluteString else uuid)
  }

  /**
   * Two views with the same Storage path share one cache entry, whatever their
   * URLs; the same holds for two views with the same URL and no path.
   */
  lemma SameSourceSameKey(storagePath: Option<string>, url: Option<Url>, url': Option<Url>, uuid: string, uuid': string)
    requires storagePath.Some? || (url.Some? && url == url')
    ensures CacheKey(storagePath, url, uuid) == CacheKey(storagePath, url', uuid')
  {
  }

  /** The bytes `loadImage` obtains on a cache miss: by Storage path when one is given, else by URL. */
  function LoadedData(storagePath: Option<string>, url: Option<Url>, byPath: Result<Bytes, LoadError>,
                      session: Result<SessionReply, LoadError>, sdk1: Result<Bytes, LoadError>, sdk2: Result<Bytes, LoadError>): (r: Result<Bytes, LoadError>)
    ensures storagePath.Some? ==> r == byPath
    ensures storagePath.None? && url.Some? ==> r == FetchImageData(url.value, session, sdk1, sdk2)
    ensures storagePath.None? && url.None? ==> r == Err(Unknown)
  {
    if storagePath.Some? then byPath
    else if url.Some? then FetchImageData(url.value, session, sdk1, sdk2)
    else Err(Unknown)
  }

  /** The view's state: the image shown and whether it is still loading. */
  class AsyncImageView {
    const url: Option<Url>
    const storagePath: Option<string>
    var image: Option<Image>
    var isLoading: bool

    constructor(url: Option<Url>, storagePath: Option<string>)
      ensures this.url == url && this.storagePath == storagePath
      ensures image == None && isLoading
    {
      this.url := url;
      this.storagePath := storagePath;
      image := None;
      isLoading := true;
    }

    /**
     * `loadImage`: with no source, show nothing; on a cache hit, show the cached
     * image without fetching; otherwise fetch, decode, and on success store it in
     * the cache and show it. Any failure shows nothing and stores nothing.
     */
    method LoadImage(shared: ImageCache, uuid: string, decode: Bytes -> Option<Image>,
                     byPath: Result<Bytes, LoadError>, session: Result<SessionReply, LoadError>,
                     sdk1: Result<Bytes, LoadError>, sdk2: Result<Bytes, LoadError>)
      modifies this, shared
      ensures !isLoading
      ensures storagePath.None? && url.None? ==> image == None && shared.cache == old(shared.cache)
      ensures var key := CacheKey(storagePath, url, uuid);
              (storagePath.Some? || url.Some?) ==>
              if key in old(shared.cache) then
                image == Some(old(shared.cache)[key]) && shared.cache == old(shared.cache)
              else
                var data := LoadedData(storagePath, url, byPath, session, sdk1, sdk2);
                if data.Ok? && decode(data.value).Some? then
                  image == decode(data.value) &&
                  exists evicted :: Evictable(old(shared.cache), evicted) &&
                    shared.cache == AfterSet(old(shared.cache), key, image.value, evicted)
                else
                  image == None && shared.cache == old(shared.cache)
    {
      if storagePath.None? && url.None? {
        isLoading := false;
        image := None;
        return;
      }
      var key := CacheKey(storagePath, url, uuid);
      var cached := shared.GetImage(key);
      if cached.Some? {
        image := cached;
        isLoading := false;
        return;
      }
      var data := LoadedData(storagePath, url, byPath, session, sdk1, sdk2);
      if data.Err? {
        isLoading := false;
        image := None;
        return;
      }
      var loaded := decode(data.value);
      if loaded.None? {
        isLoading := false;
        image := None;
        return;
      }
      shared.SetImage(loaded.value, key);
      image := loaded;
      isLoading := false;
    }
  }
}
