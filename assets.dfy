/**
 * The image asset service: Lorem Picsum placeholders, the size-optimised
 * variant of a placeholder, and the cached Unsplash and Pexels searches.
 * A search's HTTP exchange is a parameter (a reply with a status and an
 * already mapped body, or a network failure), and so is the cache's
 * 30-minute timer, whose firing is the `Expire` method.
 */
module Assets {
  import opened Util

  datatype Source = Unsplash | Pexels | Placeholder
  datatype Orientation = Landscape | Portrait | Squarish
  datatype Preferred = PreferUnsplash | PreferPexels | Auto

  datatype ImageAsset = ImageAsset(
    id: string,
    url: string,
    thumbnailUrl: string,
    webpUrl: Option<string>,
    alt: string,
    width: int,
    height: int,
    photographer: string,
    photographerUrl: Option<string>,
    source: Source,
    tags: seq<string>,
    color: Option<string>,
    downloadUrl: Option<string>)

  /** Options as given; a missing or zero page or page size takes its default. */
  datatype SearchOptions = SearchOptions(
    query: string,
    page: Option<int>,
    perPage: Option<int>,
    orientation: Option<Orientation>,
    size: Option<string>,
    color: Option<string>)

  datatype AssetCollection = AssetCollection(
    images: seq<ImageAsset>,
    total: int,
    page: int,
    totalPages: int,
    hasMore: bool)

  const PicSumBaseUrl: string := "https://picsum.photos"
  const PlaceholderPrefix: string := "placeholder-"
  const DefaultPerPage: int := 20
  const PlaceholderTotal: int := 1000
  const PlaceholderPages: int := 50

  /** `value || fallback` on a number: `undefined` and 0 are falsy. */
  function OrDefault(value: Option<int>, fallback: int): (r: int)
    ensures value.Some? && value.value != 0 ==> r == value.value
    ensures value.None? || value.value == 0 ==> r == fallback
  {
    if value.Some? && value.value != 0 then value.value else fallback
  }

  function PageOf(o: SearchOptions): int { OrDefault(o.page, 1) }
  function PerPageOf(o: SearchOptions): int { OrDefault(o.perPage, DefaultPerPage) }

  // ---------------------------------------------------------------------------
  // getPlaceholderImages
  // ---------------------------------------------------------------------------

  /** `${base}/${width}/${height}${suffix}?random=${id}`. */
  function PicSumUrl(width: int, height: int, suffix: string, id: string): string
  {
    PicSumBaseUrl + "/" + IntToString(width) + "/" + IntToString(height) + suffix + "?random=" + id
  }

  /** The number of the `i`-th placeholder of a page: 100 + i + (page - 1) * count. */
  function PlaceholderNumber(o: SearchOptions, i: int): int
  {
    100 + i + (PageOf(o) - 1) * PerPageOf(o)
  }

  function PlaceholderWidth(o: SearchOptions): int
  {
    if o.orientation == Some(Portrait) then 400 else 600
  }

  function PlaceholderHeight(o: SearchOptions): int
  {
    if o.orientation == Some(Portrait) then 600 else 400
  }

  /** The `i`-th placeholder image of the page `o` asks for. */
  function PlaceholderImage(o: SearchOptions, i: int): (img: ImageAsset)
  {
    var n := IntToString(PlaceholderNumber(o, i));
    var w, h := PlaceholderWidth(o), PlaceholderHeight(o);
    ImageAsset(PlaceholderPrefix + n, PicSumUrl(w, h, "", n), PicSumUrl(w / 2, h / 2, "", n),
               Some(PicSumUrl(w, h, ".webp", n)), "Placeholder image for " + o.query, w, h,
               "Lorem Picsum", Some(PicSumBaseUrl), Placeholder, [o.query, "placeholder"],
               Some("#cccccc"), None)
  }

  /** The collection around a page of placeholders: 1000 images over 50 pages. */
  function PlaceholderCollection(o: SearchOptions, images: seq<ImageAsset>): (c: AssetCollection)
    ensures c.images == images && c.total == PlaceholderTotal && c.totalPages == PlaceholderPages
    ensures c.page == PageOf(o) && (c.hasMore <==> PageOf(o) < PlaceholderPages)
  {
    AssetCollection(images, PlaceholderTotal, PageOf(o), PlaceholderPages, PageOf(o) < PlaceholderPages)
  }

  /** The placeholders `getPlaceholderImages` returns, one per place of the page. */
  function Placeholders(o: SearchOptions): (c: AssetCollection)
    ensures |c.images| == MaxInt(0, PerPageOf(o))
  {
    PlaceholderCollection(o, seq(MaxInt(0, PerPageOf(o)), i => PlaceholderImage(o, i)))
  }

  /** `getPlaceholderImages`: the loop that pushes one placeholder per place of the page. */
  method GetPlaceholderImages(o: SearchOptions) returns (c: AssetCollection)
    ensures |c.images| == MaxInt(0, PerPageOf(o))
    ensures forall i :: 0 <= i < |c.images| ==> c.images[i] == PlaceholderImage(o, i)
    ensures c == Placeholders(o)
  {
    var count := PerPageOf(o);
    var images: seq<ImageAsset> := [];
    var i := 0;
    while i < count
      invariant 0 <= i <= MaxInt(0, count)
      invariant |images| == i
      invariant images == Placeholders(o).images[..i]
    {
      images := images + [PlaceholderImage(o, i)];
      i := i + 1;
    }
    assert images == Placeholders(o).images;
    c := PlaceholderCollection(o, images);
  }

  /** A page holds the requested number of placeholders, twenty when none (or zero) is requested. */
  lemma PlaceholderCount(o: SearchOptions)
    ensures o.perPage.None? || o.perPage == Some(0) ==> |Placeholders(o).images| == 20
    ensures o.perPage.Some? && o.perPage.value > 0 ==> |Placeholders(o).images| == o.perPage.value
    ensures Placeholders(o).total == 1000 && Placeholders(o).totalPages == 50
    ensures Placeholders(o).hasMore <==> PageOf(o) < 50
  {
  }

  /** Portrait placeholders are 400 by 600, all others 600 by 400, with thumbnails at half size. */
  lemma PlaceholderSizes(o: SearchOptions, i: int)
    ensures var img := PlaceholderImage(o, i);
            && (o.orientation == Some(Portrait) ==> img.width == 400 && img.height == 600)
            && (o.orientation != Some(Portrait) ==> img.width == 600 && img.height == 400)
            && img.width == 2 * (img.width / 2) && img.height == 2 * (img.height / 2)
            && img.thumbnailUrl == PicSumUrl(img.width / 2, img.height / 2, "", IntToString(PlaceholderNumber(o, i)))
  {
  }

  /** `placeholder-` followed by a number gives back that number. */
  lemma PlaceholderIdNumber(n: int, m: int)
    requires PlaceholderPrefix + IntToString(n) == PlaceholderPrefix + IntToString(m)
    ensures n == m
  {
    assert IntToString(n) == (PlaceholderPrefix + IntToString(n))[|PlaceholderPrefix|..];
    assert IntToString(m) == (PlaceholderPrefix + IntToString(m))[|PlaceholderPrefix|..];
    IntToStringInjective(n, m);
  }

  /** The images of one page have distinct ids. */
  lemma PlaceholderIdsDistinct(o: SearchOptions, i: int, j: int)
    requires i != j
    ensures PlaceholderImage(o, i).id != PlaceholderImage(o, j).id
  {
    if PlaceholderImage(o, i).id == PlaceholderImage(o, j).id {
      PlaceholderIdNumber(PlaceholderNumber(o, i), PlaceholderNumber(o, j));
    }
  }

  /** With the same page size, two different pages share no image id. */
  lemma PagesDisjoint(o1: SearchOptions, o2: SearchOptions, i: int, j: int)
    requires PerPageOf(o1) == PerPageOf(o2) && PageOf(o1) != PageOf(o2)
    requires 0 <= i < PerPageOf(o1) && 0 <= j < PerPageOf(o2)
    ensures PlaceholderImage(o1, i).id != PlaceholderImage(o2, j).id
  {
    var c := PerPageOf(o1);
    var p, q := PageOf(o1), PageOf(o2);
    if PlaceholderImage(o1, i).id == PlaceholderImage(o2, j).id {
      PlaceholderIdNumber(PlaceholderNumber(o1, i), PlaceholderNumber(o2, j));
      PageOffsets(p, q, c);
      assert false;
    }
  }

  /** Page starts a page size apart or more: `(p - 1) * c` and `(q - 1) * c` differ by at least `c`. */
  lemma PageOffsets(p: int, q: int, c: int)
    requires p != q && c > 0
    ensures (q - 1) * c - (p - 1) * c >= c || (p - 1) * c - (q - 1) * c >= c
  {
    assert (q - 1) * c == q * c - c && (p - 1) * c == p * c - c;
    if p < q {
      MulAtLeast(q - p, c);
      assert (q - p) * c == q * c - p * c;
    } else {
      MulAtLeast(p - q, c);
      assert (p - q) * c == p * c - q * c;
    }
  }

  lemma {:induction false} MulAtLeast(d: int, c: int)
    requires d >= 1 && c > 0
    ensures d * c >= c
    decreases d
  {
    if d > 1 {
      MulAtLeast(d - 1, c);
      assert d * c == (d - 1) * c + c;
    }
  }

  // ---------------------------------------------------------------------------
  // getOptimizedImage
  // ---------------------------------------------------------------------------

  predicate StartsWith(s: string, prefix: string)
  {
    |prefix| <= |s| && s[..|prefix|] == prefix
  }

  /**
   * `getOptimizedImage`: a placeholder id gets a placeholder of the target
   * size showing the same picture; any other id gets nothing.
   */
  function OptimizedImage(imageId: string, targetWidth: int, targetHeight: int): (r: Option<ImageAsset>)
    ensures r.Some? <==> StartsWith(imageId, PlaceholderPrefix)
    ensures r.Some? ==> r.value.id == imageId && r.value.width == targetWidth && r.value.height == targetHeight
    ensures r.Some? ==> r.value.source == Placeholder
  {
    if StartsWith(imageId, PlaceholderPrefix) then
      // `replace` removes the first occurrence, which is the prefix itself
      var n := imageId[|PlaceholderPrefix|..];
      Some(ImageAsset(imageId, PicSumUrl(targetWidth, targetHeight, "", n),
                      PicSumUrl(Floor(targetWidth as real / 2.0), Floor(targetHeight as real / 2.0), "", n),
                      Some(PicSumUrl(targetWidth, targetHeight, ".webp", n)), "Optimized placeholder image",
                      targetWidth, targetHeight, "Lorem Picsum", None, Placeholder,
                      ["optimized", "placeholder"], None, None))
    else None
  }

  /** Optimising a placeholder from a page keeps its picture: the `random` number is the same. */
  lemma OptimizedKeepsPicture(o: SearchOptions, i: int, targetWidth: int, targetHeight: int)
    ensures var img := PlaceholderImage(o, i);
            var r := OptimizedImage(img.id, targetWidth, targetHeight);
            && r.Some?
            && r.value.url == PicSumUrl(targetWidth, targetHeight, "", IntToString(PlaceholderNumber(o, i)))
            && r.value.thumbnailUrl ==
                 PicSumUrl(Floor(targetWidth as real / 2.0), Floor(targetHeight as real / 2.0), "",
                           IntToString(PlaceholderNumber(o, i)))
  {
    var n := IntToString(PlaceholderNumber(o, i));
    var id := PlaceholderImage(o, i).id;
    assert id == PlaceholderPrefix + n;
    assert id[..|PlaceholderPrefix|] == PlaceholderPrefix;
    assert id[|PlaceholderPrefix|..] == n;
  }

  /** Images from the search services are never optimised. */
  lemma OnlyPlaceholdersOptimize(rest: string, targetWidth: int, targetHeight: int)
    ensures OptimizedImage("unsplash-" + rest, targetWidth, targetHeight).None?
    ensures OptimizedImage("pexels-" + rest, targetWidth, targetHeight).None?
  {
    assert ("unsplash-" + rest)[0] == 'u';
    assert ("pexels-" + rest)[1] == 'e';
  }

  // ---------------------------------------------------------------------------
  // searchUnsplash / searchPexels / searchImages
  // ---------------------------------------------------------------------------

  /** The JSON body of an Unsplash search, its results already mapped to assets. */
  datatype UnsplashBody = UnsplashBody(results: seq<ImageAsset>, total: int, page: Option<int>, totalPages: Option<int>)

  /** The JSON body of a Pexels search, its photos already mapped to assets. */
  datatype PexelsBody = PexelsBody(photos: seq<ImageAsset>, totalResults: int, page: Option<int>)

  /** What `fetch` resolves to: a reply with its status, or a rejection. */
  datatype Response<B> = Reply(status: int, statusText: string, body: B) | NetworkFailure(message: string)

  /** `response.ok`. */
  predicate IsOk<B>(r: Response<B>)
  {
    r.Reply? && 200 <= r.status <= 299
  }

  /** The cache key: the service and the options (`${service}:${JSON.stringify(options)}`). */
  datatype CacheKey = CacheKey(source: Source, options: SearchOptions)

  type Cache = map<CacheKey, AssetCollection>

  function UnsplashCollection(body: UnsplashBody): (c: AssetCollection)
    ensures c.images == body.results && c.total == body.total
    ensures c.hasMore <==> c.page < c.totalPages
  {
    var page := OrDefault(body.page, 1);
    var pages := OrDefault(body.totalPages, 1);
    AssetCollection(body.results, body.total, page, pages, page < pages)
  }

  /** The Pexels page count, `Math.ceil(total / perPage)`; `hasMore` compares the reply's own page to it. */
  function PexelsCollection(o: SearchOptions, body: PexelsBody): (c: AssetCollection)
    ensures c.images == body.photos && c.total == body.totalResults
    ensures c.hasMore <==> body.page.Some? && body.page.value < c.totalPages
  {
    var pages := Ceil(body.totalResults as real / PerPageOf(o) as real);
    AssetCollection(body.photos, body.totalResults, OrDefault(body.page, 1), pages,
                    body.page.Some? && body.page.value < pages)
  }

  /** The `try` block of `searchUnsplash`: the cached answer, the reply's collection, or the error it throws. */
  function TryUnsplash(cache: Cache, o: SearchOptions, r: Response<UnsplashBody>): (res: Result<AssetCollection>)
    ensures CacheKey(Unsplash, o) in cache ==> res == Ok(cache[CacheKey(Unsplash, o)])
    ensures CacheKey(Unsplash, o) !in cache ==> (res.Ok? <==> IsOk(r))
  {
    var key := CacheKey(Unsplash, o);
    if key in cache then Ok(cache[key])
    else match r
      case NetworkFailure(message) => Err(message)
      case Reply(status, statusText, body) =>
        if IsOk(r) then Ok(UnsplashCollection(body))
        else Err("Unsplash API error: " + IntToString(status) + " " + statusText)
  }

  function TryPexels(cache: Cache, o: SearchOptions, r: Response<PexelsBody>): (res: Result<AssetCollection>)
    ensures CacheKey(Pexels, o) in cache ==> res == Ok(cache[CacheKey(Pexels, o)])
    ensures CacheKey(Pexels, o) !in cache ==> (res.Ok? <==> IsOk(r))
  {
    var key := CacheKey(Pexels, o);
    if key in cache then Ok(cache[key])
    else match r
      case NetworkFailure(message) => Err(message)
      case Reply(status, statusText, body) =>
        if IsOk(r) then Ok(PexelsCollection(o, body))
        else Err("Pexels API error: " + IntToString(status) + " " + statusText)
  }

  /** Only a freshly fetched answer is stored; an error stores nothing. */
  function Stored(cache: Cache, key: CacheKey, res: Result<AssetCollection>): (c: Cache)
    ensures res.Ok? ==> c == cache[key := res.value]
    ensures res.Err? ==> c == cache
  {
    if res.Ok? then cache[key := res.value] else cache
  }

  /** What `searchUnsplash` resolves to: any error falls back to placeholders. */
  function UnsplashAnswer(cache: Cache, o: SearchOptions, r: Response<UnsplashBody>): (c: AssetCollection)
  {
    match TryUnsplash(cache, o, r)
    case Ok(c) => c
    case Err(_) => Placeholders(o)
  }

  function PexelsAnswer(cache: Cache, o: SearchOptions, r: Response<PexelsBody>): (c: AssetCollection)
  {
    match TryPexels(cache, o, r)
    case Ok(c) => c
    case Err(_) => Placeholders(o)
  }

  /** A cached search is answered from the cache whatever the network would have said. */
  lemma CachedSearchSkipsFetch(cache: Cache, o: SearchOptions, r1: Response<UnsplashBody>, r2: Response<UnsplashBody>,
                               p1: Response<PexelsBody>, p2: Response<PexelsBody>)
    ensures CacheKey(Unsplash, o) in cache ==>
              UnsplashAnswer(cache, o, r1) == UnsplashAnswer(cache, o, r2) == cache[CacheKey(Unsplash, o)]
    ensures CacheKey(Pexels, o) in cache ==>
              PexelsAnswer(cache, o, p1) == PexelsAnswer(cache, o, p2) == cache[CacheKey(Pexels, o)]
  {
  }

  /**
   * Searching again with the same options, before the entry expires, gives
   * the same answer; after a failure nothing was stored, so the next search
   * asks the network again.
   */
  lemma RepeatedSearch(cache: Cache, o: SearchOptions, r: Response<UnsplashBody>, again: Response<UnsplashBody>)
    ensures var after := Stored(cache, CacheKey(Unsplash, o), TryUnsplash(cache, o, r));
            && (TryUnsplash(cache, o, r).Ok? ==> UnsplashAnswer(after, o, again) == UnsplashAnswer(cache, o, r))
            && (TryUnsplash(cache, o, r).Err? ==> after == cache && CacheKey(Unsplash, o) !in after)
  {
  }

  /** `searchImages` in `auto` mode as written: the Unsplash search, which never rejects. */
  function AutoAnswerAsWritten(cache: Cache, o: SearchOptions, u: Response<UnsplashBody>, p: Response<PexelsBody>): (c: AssetCollection)
  {
    UnsplashAnswer(cache, o, u)
  }

  /**
   * `searchUnsplash` catches its own errors and resolves to placeholders,
   * so the `auto` mode never reaches Pexels: with Unsplash offline and
   * Pexels answering, the result is still the placeholder page.
   */
  lemma AutoNeverAsksPexels()
    ensures var o := SearchOptions("cat", None, None, None, None, None);
            var u: Response<UnsplashBody> := NetworkFailure("offline");
            var p: Response<PexelsBody> := Reply(200, "OK", PexelsBody([], 7, Some(1)));
            && AutoAnswerAsWritten(map[], o, u, p) == Placeholders(o)
            && AutoAnswerAsWritten(map[], o, u, p) != PexelsAnswer(map[], o, p)
  {
    var o := SearchOptions("cat", None, None, None, None, None);
    assert PexelsAnswer(map[], o, Reply(200, "OK", PexelsBody([], 7, Some(1)))).total == 7;
  }

  /**
   * `searchImages` in `auto` mode as described: Unsplash first, then
   * Pexels, then placeholders.
   */
  function AutoAnswer(cache: Cache, o: SearchOptions, u: Response<UnsplashBody>, p: Response<PexelsBody>): (c: AssetCollection)
  {
    match TryUnsplash(cache, o, u)
    case Ok(c) => c
    case Err(_) =>
      match TryPexels(cache, o, p)
      case Ok(c) => c
      case Err(_) => Placeholders(o)
  }

  /** Auto mode serves Unsplash when it answers, Pexels when only Pexels answers, placeholders otherwise. */
  lemma AutoFallsBack(cache: Cache, o: SearchOptions, u: Response<UnsplashBody>, p: Response<PexelsBody>)
    ensures TryUnsplash(cache, o, u).Ok? ==> AutoAnswer(cache, o, u, p) == UnsplashAnswer(cache, o, u)
    ensures TryUnsplash(cache, o, u).Err? && TryPexels(cache, o, p).Ok? ==>
              AutoAnswer(cache, o, u, p) == PexelsAnswer(cache, o, p)
    ensures TryUnsplash(cache, o, u).Err? && TryPexels(cache, o, p).Err? ==> AutoAnswer(cache, o, u, p) == Placeholders(o)
  {
  }

  /** The service object: the search cache shared by both image services. */
  class AssetsApiService {
    var cache: Cache

    constructor()
      ensures cache == map[]
    {
      cache := map[];
    }

    /** `searchUnsplash`. */
    method SearchUnsplash(o: SearchOptions, r: Response<UnsplashBody>) returns (c: AssetCollection)
      modifies this
      ensures c == UnsplashAnswer(old(cache), o, r)
      ensures cache == Stored(old(cache), CacheKey(Unsplash, o), TryUnsplash(old(cache), o, r))
    {
      var key := CacheKey(Unsplash, o);
      if key in cache {
        return cache[key];
      }
      var res := TryUnsplash(cache, o, r);
      if res.Ok? {
        c := res.value;
        cache := cache[key := c];
      } else {
        c := GetPlaceholderImages(o);
      }
    }

    /** `searchPexels`. */
    method SearchPexels(o: SearchOptions, r: Response<PexelsBody>) returns (c: AssetCollection)
      modifies this
      ensures c == PexelsAnswer(old(cache), o, r)
      ensures cache == Stored(old(cache), CacheKey(Pexels, o), TryPexels(old(cache), o, r))
    {
      var key := CacheKey(Pexels, o);
      if key in cache {
        return cache[key];
      }
      var res := TryPexels(cache, o, r);
      if res.Ok? {
        c := res.value;
        cache := cache[key := c];
      } else {
        c := GetPlaceholderImages(o);
      }
    }

    /**
     * `searchImages`, with `auto` trying Unsplash, then Pexels, then
     * placeholders: the intended fallback chain (see `AutoNeverAsksPexels`
     * for the code as written, where auto mode stops at Unsplash).
     */
    method SearchImages(o: SearchOptions, preferred: Preferred, u: Response<UnsplashBody>, p: Response<PexelsBody>)
      returns (c: AssetCollection)
      modifies this
      ensures preferred == PreferUnsplash ==> c == UnsplashAnswer(old(cache), o, u)
      ensures preferred == PreferPexels ==> c == PexelsAnswer(old(cache), o, p)
      ensures preferred == Auto ==> c == AutoAnswer(old(cache), o, u, p)
      ensures preferred == PreferUnsplash ==> cache == Stored(old(cache), CacheKey(Unsplash, o), TryUnsplash(old(cache), o, u))
      ensures preferred == PreferPexels ==> cache == Stored(old(cache), CacheKey(Pexels, o), TryPexels(old(cache), o, p))
      ensures preferred == Auto ==>
        var fromUnsplash := TryUnsplash(old(cache), o, u);
        if fromUnsplash.Ok? then cache == Stored(old(cache), CacheKey(Unsplash, o), fromUnsplash)
        else cache == Stored(old(cache), CacheKey(Pexels, o), TryPexels(old(cache), o, p))
    {
      if preferred == PreferUnsplash {
        c := SearchUnsplash(o, u);
      } else if preferred == PreferPexels {
        c := SearchPexels(o, p);
      } else {
        var fromUnsplash := TryUnsplash(cache, o, u);
        cache := Stored(cache, CacheKey(Unsplash, o), fromUnsplash);
        if fromUnsplash.Ok? {
          c := fromUnsplash.value;
        } else {
          c := SearchPexels(o, p);
        }
      }
    }

    /** The 30-minute timer set when an answer is stored: it drops that entry. */
    method Expire(key: CacheKey)
      modifies this
      ensures cache == old(cache) - {key}
    {
      cache := cache - {key};
    }
  }
}
