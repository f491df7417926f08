/** The `scrape-immoscout` edge function (supabase/functions/scrape-immoscout/index.ts):
    check the request, start the scraper run, fetch its dataset and normalise the first
    item into `{title, address, pictures}` by `||` coalescing over several field names.
    The scraper service is injected: the reply to the run request and the reply to the
    dataset request are parameters, and the model records which calls were issued.
    Runtime `TypeError`s the code provokes on `null` entries and non-array picture lists
    are thrown errors like any other, with the runtime's wording. */
module ScrapeListing {
  import opened Js

  // ----- pictures -----

  const PictureType: Value := Str("PICTURE")

  /** Line 88: an entry of `media` whose `type` or `@type` is "PICTURE". */
  predicate IsPictureEntry(m: Value)
  {
    Get(Some(m), "type") == Some(PictureType) || Get(Some(m), "@type") == Some(PictureType)
  }

  /** Some entry of `vs` is `null`. */
  predicate HasNull(vs: seq<Value>)
  {
    exists k :: 0 <= k < |vs| && vs[k].Null?
  }

  lemma NoNullAppend(a: seq<Value>, b: seq<Value>)
    requires !HasNull(a) && !HasNull(b)
    ensures !HasNull(a + b)
    ensures |a| > 0 ==> !HasNull(a[1..])
  {
    forall k | 0 <= k < |a + b|
      ensures !(a + b)[k].Null?
    {
      if k < |a| {
        assert (a + b)[k] == a[k];
      } else {
        assert (a + b)[k] == b[k - |a|];
      }
    }
    if |a| > 0 {
      forall k | 0 <= k < |a[1..]|
        ensures !a[1..][k].Null?
      {
        assert a[1..][k] == a[k + 1];
      }
    }
  }

  /** Line 88: `media.filter(m => m.type === "PICTURE" || m["@type"] === "PICTURE")`. */
  function FilterPictures(ms: seq<Value>): (r: Result<seq<Value>, string>)
    ensures r.Failure? <==> HasNull(ms)
    ensures r.Failure? ==> r.error == NullRead("type")
    ensures r.Success? ==> |r.value| <= |ms| && forall k :: 0 <= k < |r.value| ==> IsPictureEntry(r.value[k])
  {
    if |ms| == 0 then Success([])
    else if ms[0].Null? then Failure(NullRead("type"))
    else
      var rest := FilterPictures(ms[1..]);
      assert HasNull(ms) <==> HasNull(ms[1..]) by {
        if HasNull(ms) {
          var k :| 0 <= k < |ms| && ms[k].Null?;
          assert ms[1..][k - 1].Null?;
        }
        if HasNull(ms[1..]) {
          var k :| 0 <= k < |ms[1..]| && ms[1..][k].Null?;
          assert ms[k + 1].Null?;
        }
      }
      if rest.Failure? then rest
      else if IsPictureEntry(ms[0]) then Success([ms[0]] + rest.value)
      else rest
  }

  /** Filtering keeps the order of the entries: the filter of a concatenation is the
      concatenation of the filters. */
  lemma {:induction false} FilterPicturesAppend(a: seq<Value>, b: seq<Value>)
    requires !HasNull(a) && !HasNull(b)
    ensures FilterPictures(a + b) == Success(FilterPictures(a).value + FilterPictures(b).value)
    decreases |a|
  {
    if |a| == 0 {
      assert a + b == b;
      assert FilterPictures(a).value + FilterPictures(b).value == FilterPictures(b).value;
    } else {
      assert (a + b)[1..] == a[1..] + b;
      assert (a + b)[0] == a[0];
      NoNullAppend(a, b);
      NoNullAppend(a[1..], b);
      FilterPicturesAppend(a[1..], b);
      assert !a[0].Null? by { assert !HasNull(a); }
      var h: seq<Value> := if IsPictureEntry(a[0]) then [a[0]] else [];
      assert FilterPictures(a).value == h + FilterPictures(a[1..]).value;
      assert FilterPictures(a + b).value == h + (FilterPictures(a[1..]).value + FilterPictures(b).value);
      assert h + (FilterPictures(a[1..]).value + FilterPictures(b).value) == (h + FilterPictures(a[1..]).value) + FilterPictures(b).value;
    }
  }

  /** A single entry passes the filter exactly when it is a picture entry. */
  lemma FilterPicturesOne(m: Value)
    requires !m.Null?
    ensures FilterPictures([m]) == Success(if IsPictureEntry(m) then [m] else [])
  {
    assert [m][1..] == [];
    assert [m] + [] == [m];
  }

  /** A normalised picture: `url` is truthy, `title` is truthy or `null`. */
  datatype Picture = Picture(url: Value, title: Value)

  predicate WellFormedPicture(p: Picture)
  {
    Truthy(Some(p.url)) && (p.title.Null? || Truthy(Some(p.title)))
  }

  /** Line 105: `p.url || p.uri || p.src || p.imageUrl` (may be `undefined`). */
  function PictureUrl(p: Value): (r: Option<Value>)
    ensures Truthy(r) <==>
      Truthy(Get(Some(p), "url")) || Truthy(Get(Some(p), "uri")) || Truthy(Get(Some(p), "src"))
      || Truthy(Get(Some(p), "imageUrl"))
    ensures Truthy(Get(Some(p), "url")) ==> r == Get(Some(p), "url")
    ensures !Truthy(Get(Some(p), "url")) && Truthy(Get(Some(p), "uri")) ==> r == Get(Some(p), "uri")
    ensures !Truthy(Get(Some(p), "url")) && !Truthy(Get(Some(p), "uri")) && Truthy(Get(Some(p), "src")) ==>
      r == Get(Some(p), "src")
    ensures !Truthy(Get(Some(p), "url")) && !Truthy(Get(Some(p), "uri")) && !Truthy(Get(Some(p), "src")) ==>
      r == Get(Some(p), "imageUrl")
  {
    Or(Or(Or(Get(Some(p), "url"), Get(Some(p), "uri")), Get(Some(p), "src")), Get(Some(p), "imageUrl"))
  }

  /** Line 106: `p.title || p.alt || null`. */
  function PictureTitle(p: Value): (r: Value)
    ensures r.Null? || Truthy(Some(r))
    ensures Truthy(Get(Some(p), "title")) ==> Some(r) == Get(Some(p), "title")
    ensures !Truthy(Get(Some(p), "title")) && Truthy(Get(Some(p), "alt")) ==> Some(r) == Get(Some(p), "alt")
    ensures r.Null? <==> !Truthy(Get(Some(p), "title")) && !Truthy(Get(Some(p), "alt"))
  {
    Or(Or(Get(Some(p), "title"), Get(Some(p), "alt")), Some(Null)).value
  }

  /** Lines 104-107: `pictures.map(p => ({url, title})).filter(p => p.url)`. The `map`
      throws on a `null` entry before the `filter` runs. */
  function ExtractPictures(ps: seq<Value>): (r: Result<seq<Picture>, string>)
    ensures r.Failure? <==> HasNull(ps)
    ensures r.Failure? ==> r.error == NullRead("url")
    ensures r.Success? ==>
      |r.value| <= |ps| && forall k :: 0 <= k < |r.value| ==> WellFormedPicture(r.value[k])
  {
    if |ps| == 0 then Success([])
    else if ps[0].Null? then Failure(NullRead("url"))
    else
      var rest := ExtractPictures(ps[1..]);
      assert HasNull(ps) <==> HasNull(ps[1..]) by {
        if HasNull(ps) {
          var k :| 0 <= k < |ps| && ps[k].Null?;
          assert ps[1..][k - 1].Null?;
        }
        if HasNull(ps[1..]) {
          var k :| 0 <= k < |ps[1..]| && ps[1..][k].Null?;
          assert ps[k + 1].Null?;
        }
      }
      var url := PictureUrl(ps[0]);
      if rest.Failure? then rest
      else if Truthy(url) then Success([Picture(url.value, PictureTitle(ps[0]))] + rest.value)
      else rest
  }

  /** Survivors keep their relative order: extracting from a concatenation concatenates
      the extractions. */
  lemma {:induction false} ExtractPicturesAppend(a: seq<Value>, b: seq<Value>)
    requires !HasNull(a) && !HasNull(b)
    ensures ExtractPictures(a + b) == Success(ExtractPictures(a).value + ExtractPictures(b).value)
    decreases |a|
  {
    if |a| == 0 {
      assert a + b == b;
      assert ExtractPictures(a).value + ExtractPictures(b).value == ExtractPictures(b).value;
    } else {
      assert (a + b)[1..] == a[1..] + b;
      assert (a + b)[0] == a[0];
      NoNullAppend(a, b);
      NoNullAppend(a[1..], b);
      ExtractPicturesAppend(a[1..], b);
      assert !a[0].Null? by { assert !HasNull(a); }
      var h: seq<Picture> := if Truthy(PictureUrl(a[0])) then [Picture(PictureUrl(a[0]).value, PictureTitle(a[0]))] else [];
      assert ExtractPictures(a).value == h + ExtractPictures(a[1..]).value;
      assert ExtractPictures(a + b).value == h + (ExtractPictures(a[1..]).value + ExtractPictures(b).value);
      assert h + (ExtractPictures(a[1..]).value + ExtractPictures(b).value) == (h + ExtractPictures(a[1..]).value) + ExtractPictures(b).value;
    }
  }

  /** A single entry yields its picture when it has a truthy url, and is dropped otherwise. */
  lemma ExtractPicturesOne(p: Value)
    requires !p.Null?
    ensures ExtractPictures([p]) ==
      Success(if Truthy(PictureUrl(p)) then [Picture(PictureUrl(p).value, PictureTitle(p))] else [])
  {
    assert [p][1..] == [];
    if Truthy(PictureUrl(p)) {
      var q := Picture(PictureUrl(p).value, PictureTitle(p));
      assert [q] + [] == [q];
    }
  }

  /** The JSON object a normalised picture becomes. */
  function PictureValue(p: Picture): (v: Value)
    ensures Get(Some(v), "url") == Some(p.url) && Get(Some(v), "title") == Some(p.title)
  {
    Obj(map["url" := p.url, "title" := p.title])
  }

  function PictureValues(ps: seq<Picture>): (vs: seq<Value>)
    ensures |vs| == |ps|
  {
    if |ps| == 0 then [] else [PictureValue(ps[0])] + PictureValues(ps[1..])
  }

  /** Normalising pictures is idempotent: normalising the output again changes nothing. */
  lemma {:induction false} ExtractPicturesIdempotent(ps: seq<Picture>)
    requires forall k :: 0 <= k < |ps| ==> WellFormedPicture(ps[k])
    ensures ExtractPictures(PictureValues(ps)) == Success(ps)
    decreases |ps|
  {
    if |ps| > 0 {
      var vs := PictureValues(ps);
      assert vs[1..] == PictureValues(ps[1..]);
      ExtractPicturesIdempotent(ps[1..]);
      assert WellFormedPicture(ps[0]);
      assert vs[0] == PictureValue(ps[0]);
      assert PictureUrl(vs[0]) == Some(ps[0].url);
      assert PictureTitle(vs[0]) == ps[0].title;
      assert [ps[0]] + ps[1..] == ps;
    }
  }

  /** `pictures.map(...)` on a truthy value that is not an array throws. */
  function AsList(name: string, v: Value): Result<seq<Value>, string>
  {
    if v.Arr? then Success(v.items) else Failure(name + ".map is not a function")
  }

  /** Lines 85-93: the entries the pictures are taken from, by priority: the picture
      entries of `media` when it is an array, else a truthy `pictures`, else a truthy
      `images`, else none. */
  function PictureCandidates(item: Value): Result<seq<Value>, string>
  {
    var media := Get(Some(item), "media");
    var pictures := Get(Some(item), "pictures");
    var images := Get(Some(item), "images");
    if media.Some? && media.value.Arr? then FilterPictures(media.value.items)
    else if Truthy(pictures) then AsList("pictures", pictures.value)
    else if Truthy(images) then AsList("pictures", images.value)
    else Success([])
  }

  /** The priority of the picture sources. An array `media` decides alone, giving its
      picture entries, even when it holds none; otherwise `pictures` decides when truthy,
      giving its own entries (an empty array is truthy); `images` is consulted only after
      both; with none of the three there are no pictures. A truthy source that is not
      an array makes `pictures.map` throw. */
  lemma PictureSourcePriority(item: Value, other: Value)
    ensures var media := Get(Some(item), "media");
      media.Some? && media.value.Arr? ==> PictureCandidates(item) == FilterPictures(media.value.items)
    ensures var media := Get(Some(item), "media");
      media.Some? && media.value.Arr? && Get(Some(other), "media") == media ==>
        PictureCandidates(item) == PictureCandidates(other)
    ensures var media := Get(Some(item), "media");
      var pictures := Get(Some(item), "pictures");
      !(media.Some? && media.value.Arr?) && Truthy(pictures) ==>
        PictureCandidates(item) ==
          if pictures.value.Arr? then Success(pictures.value.items)
          else Failure("pictures.map is not a function")
    ensures Get(Some(item), "media") == Some(Arr([])) ==> PictureCandidates(item) == Success([])
    ensures var media := Get(Some(item), "media");
      !(media.Some? && media.value.Arr?) && Get(Some(item), "pictures") == Some(Arr([])) ==>
        PictureCandidates(item) == Success([])
    ensures var media := Get(Some(item), "media");
      !(media.Some? && media.value.Arr?) && !Truthy(Get(Some(item), "pictures")) ==>
        PictureCandidates(item) ==
          if Truthy(Get(Some(item), "images")) then AsList("pictures", Get(Some(item), "images").value)
          else Success([])
  {
    assert "pictures" + ".map is not a function" == "pictures.map is not a function";
  }

  // ----- the listing -----

  /** The normalised record `{title, address, pictures}`. */
  datatype Listing = Listing(title: Value, address: Value, pictures: seq<Picture>)

  /** Line 102: `item.title || item.name || "Untitled Property"`. */
  function ListingTitle(item: Value): (r: Value)
    ensures Truthy(Some(r))
    ensures Truthy(Get(Some(item), "title")) ==> Some(r) == Get(Some(item), "title")
    ensures !Truthy(Get(Some(item), "title")) && Truthy(Get(Some(item), "name")) ==> Some(r) == Get(Some(item), "name")
    ensures !Truthy(Get(Some(item), "title")) && !Truthy(Get(Some(item), "name")) ==> r == Str("Untitled Property")
  {
    Or(Or(Get(Some(item), "title"), Get(Some(item), "name")), Some(Str("Untitled Property"))).value
  }

  /** Line 103: `item.address?.formattedAddress || item.address?.description || item.location || null`. */
  function ListingAddress(item: Value): (r: Value)
    ensures r.Null? || Truthy(Some(r))
    ensures var address := Get(Some(item), "address");
      r.Null? <==>
        !Truthy(Get(address, "formattedAddress")) && !Truthy(Get(address, "description"))
        && !Truthy(Get(Some(item), "location"))
    ensures var address := Get(Some(item), "address");
      Truthy(Get(address, "formattedAddress")) ==> Some(r) == Get(address, "formattedAddress")
    ensures var address := Get(Some(item), "address");
      !Truthy(Get(address, "formattedAddress")) && Truthy(Get(address, "description")) ==>
        Some(r) == Get(address, "description")
    ensures var address := Get(Some(item), "address");
      (!Truthy(Get(address, "formattedAddress")) && !Truthy(Get(address, "description"))
       && Truthy(Get(Some(item), "location"))) ==> Some(r) == Get(Some(item), "location")
  {
    var address := Get(Some(item), "address");
    Or(Or(Or(Get(address, "formattedAddress"), Get(address, "description")), Get(Some(item), "location")), Some(Null)).value
  }

  /** Lines 85-108: the normalised record of one dataset item. */
  function Normalize(item: Value): Result<Listing, string>
  {
    match PictureCandidates(item)
    case Failure(e) => Failure(e)
    case Success(candidates) =>
      match ExtractPictures(candidates)
      case Failure(e) => Failure(e)
      case Success(pictures) => Success(Listing(ListingTitle(item), ListingAddress(item), pictures))
  }

  predicate WellFormedListing(l: Listing)
  {
    && Truthy(Some(l.title))
    && (l.address.Null? || Truthy(Some(l.address)))
    && forall k :: 0 <= k < |l.pictures| ==> WellFormedPicture(l.pictures[k])
  }

  /** Every normalised record has a truthy title, an address that is truthy or `null`,
      and pictures with truthy urls and truthy-or-null titles, no more of them than
      candidate entries. */
  lemma NormalizeWellFormed(item: Value)
    requires Normalize(item).Success?
    ensures WellFormedListing(Normalize(item).value)
    ensures |Normalize(item).value.pictures| <= |PictureCandidates(item).value|
  {
  }

  /** The JSON object the record becomes: `{title, address, pictures: [{url, title}]}`. */
  function ListingValue(l: Listing): (v: Value)
    ensures Get(Some(v), "title") == Some(l.title)
    ensures Get(Some(v), "address") == Some(l.address)
    ensures Get(Some(v), "pictures") == Some(Arr(PictureValues(l.pictures)))
  {
    Obj(map["title" := l.title, "address" := l.address, "pictures" := Arr(PictureValues(l.pictures))])
  }

  /** Reads `{url, title}` objects back into pictures. */
  function PicturesFromValues(vs: seq<Value>): Option<seq<Picture>>
  {
    if |vs| == 0 then Some([])
    else
      var url := Get(Some(vs[0]), "url");
      var title := Get(Some(vs[0]), "title");
      var rest := PicturesFromValues(vs[1..]);
      if url.Some? && title.Some? && rest.Some? then Some([Picture(url.value, title.value)] + rest.value)
      else None
  }

  /** Reads the JSON object back into a record (the `ScrapedPropertyData` shape of
      src/api2_immo.ts), `None` when a field is missing. */
  function ListingFromValue(v: Value): Option<Listing>
  {
    var title := Get(Some(v), "title");
    var address := Get(Some(v), "address");
    var pictures := Get(Some(v), "pictures");
    if title.Some? && address.Some? && pictures.Some? && pictures.value.Arr? then
      match PicturesFromValues(pictures.value.items)
      case None => None
      case Some(ps) => Some(Listing(title.value, address.value, ps))
    else None
  }

  lemma {:induction false} PicturesRoundTrip(ps: seq<Picture>)
    ensures PicturesFromValues(PictureValues(ps)) == Some(ps)
    decreases |ps|
  {
    if |ps| > 0 {
      assert PictureValues(ps)[1..] == PictureValues(ps[1..]);
      PicturesRoundTrip(ps[1..]);
      assert PictureValues(ps)[0] == PictureValue(ps[0]);
      assert [ps[0]] + ps[1..] == ps;
    }
  }

  /** The record survives its JSON form unchanged. */
  lemma ListingRoundTrip(l: Listing)
    ensures ListingFromValue(ListingValue(l)) == Some(l)
  {
    PicturesRoundTrip(l.pictures);
  }

  // ----- the handler -----

  /** The reply to the run request: a non-2xx status with its text, or the parsed body. */
  datatype RunReply = RunFailed(status: nat, text: string) | RunOk(runData: Value)

  /** The reply to the dataset request: a non-2xx status, or the parsed item list. */
  datatype DatasetReply = DatasetFailed(status: nat) | DatasetOk(items: seq<Value>)

  /** A call to the scraper service: starting a run for `startUrl`, fetching a dataset. */
  datatype ProviderCall = StartRun(startUrl: Value) | FetchDataset(datasetId: Value)

  /** The response and the calls issued, in order. */
  datatype ScrapeRun = ScrapeRun(response: HttpResponse, calls: seq<ProviderCall>)

  /** The messages of the handler's own errors. */
  const UrlRequiredText: string := "URL is required"
  const KeyMissingText: string := "APIFY_CLIENT_KEY not configured"
  const NoDatasetText: string := "No dataset ID returned from Apify"
  const NullBodyText: string := DestructureNull("url")
  /** What `Object.keys(items[0])`, logged before the item is checked, throws on a `null` item. */
  const ObjectKeysNullText: string := "Cannot convert undefined or null to object"
  const NoItemText: string :=
    "No data returned from scraper. The property might be unavailable or the URL format is incorrect."

  /** Lines 112-114: `{success: true, data}` with status 200. */
  function ScrapeSuccess(l: Listing): (r: HttpResponse)
    ensures r.status == 200
    ensures Truthy(Get(Some(r.body), "success")) && Get(Some(r.body), "data") == Some(ListingValue(l))
  {
    HttpResponse(200, Obj(map["success" := Bool(true), "data" := ListingValue(l)]))
  }

  /** `runData.data?.defaultDatasetId`; reading `data` off a `null` body throws. */
  function DatasetId(runData: Value): Result<Option<Value>, string>
  {
    if runData.Null? then Failure(NullRead("data"))
    else Success(Get(Get(Some(runData), "data"), "defaultDatasetId"))
  }

  /** The first dataset item, `undefined` for an empty list. */
  function FirstItem(items: seq<Value>): Option<Value>
  {
    if |items| == 0 then None else Some(items[0])
  }

  /** Reference definition of one request to the edge function. */
  function Scrape(body: Value, apifyKey: Option<string>, run: RunReply, dataset: DatasetReply): ScrapeRun
  {
    var url := Get(Some(body), "url");
    if body.Null? then ScrapeRun(ErrorResponse(NullBodyText), [])
    else if !Truthy(url) then ScrapeRun(ErrorResponse(UrlRequiredText), [])
    else if !Present(apifyKey) then ScrapeRun(ErrorResponse(KeyMissingText), [])
    else
      var started := [StartRun(url.value)];
      match run
      case RunFailed(status, text) =>
        ScrapeRun(ErrorResponse("Apify run failed: " + NatToString(status) + " - " + text), started)
      case RunOk(runData) =>
        match DatasetId(runData)
        case Failure(e) => ScrapeRun(ErrorResponse(e), started)
        case Success(datasetId) =>
          if !Truthy(datasetId) then ScrapeRun(ErrorResponse(NoDatasetText), started)
          else
            var fetched := started + [FetchDataset(datasetId.value)];
            match dataset
            case DatasetFailed(status) =>
              ScrapeRun(ErrorResponse("Failed to fetch dataset: " + NatToString(status)), fetched)
            case DatasetOk(items) =>
              var item := FirstItem(items);
              if item == Some(Null) then ScrapeRun(ErrorResponse(ObjectKeysNullText), fetched)
              else if !Truthy(item) then ScrapeRun(ErrorResponse(NoItemText), fetched)
              else
                match Normalize(item.value)
                case Failure(e) => ScrapeRun(ErrorResponse(e), fetched)
                case Success(listing) => ScrapeRun(ScrapeSuccess(listing), fetched)
  }

  /** A `null` body, a falsy `url` or a missing key is rejected before any call to the
      scraper service; a `null` body fails on the destructuring itself. */
  lemma InvalidInputNoCalls(body: Value, apifyKey: Option<string>, run: RunReply, dataset: DatasetReply)
    requires !Truthy(Get(Some(body), "url")) || !Present(apifyKey)
    ensures var r := Scrape(body, apifyKey, run, dataset);
      && r.calls == []
      && r.response == ErrorResponse(if body.Null? then NullBodyText
                                     else if !Truthy(Get(Some(body), "url")) then UrlRequiredText
                                     else KeyMissingText)
  {
  }

  /** Provider failures: a failed run reports its status and text and fetches no
      dataset; a run without a dataset id fetches none either; a failed dataset fetch
      reports its status. The dataset fetched is the one the run named. */
  lemma ProviderFailures(body: Value, apifyKey: Option<string>, run: RunReply, dataset: DatasetReply)
    requires Truthy(Get(Some(body), "url")) && Present(apifyKey)
    ensures var r := Scrape(body, apifyKey, run, dataset);
      && 1 <= |r.calls| <= 2
      && r.calls[0] == StartRun(Get(Some(body), "url").value)
      && (run.RunFailed? ==>
            r.calls == [r.calls[0]]
            && r.response == ErrorResponse("Apify run failed: " + NatToString(run.status) + " - " + run.text))
      && (run.RunOk? && DatasetId(run.runData).Success? && !Truthy(DatasetId(run.runData).value) ==>
            r.calls == [r.calls[0]] && r.response == ErrorResponse(NoDatasetText))
      && (|r.calls| == 2 ==>
            run.RunOk? && DatasetId(run.runData).Success? && Truthy(DatasetId(run.runData).value)
            && r.calls[1] == FetchDataset(DatasetId(run.runData).value.value))
      && (|r.calls| == 2 && dataset.DatasetFailed? ==>
            r.response == ErrorResponse("Failed to fetch dataset: " + NatToString(dataset.status)))
  {
  }

  /** The request succeeds exactly when every step does and the first item normalises;
      the data is the normalised first item. Only `items[0]` matters: later items never
      change the outcome. */
  lemma ScrapeSucceedsOnFirstItem(body: Value, apifyKey: Option<string>, run: RunReply, items: seq<Value>)
    ensures var r := Scrape(body, apifyKey, run, DatasetOk(items));
      && (r.response.status == 200 <==>
            Truthy(Get(Some(body), "url")) && Present(apifyKey) && run.RunOk?
            && DatasetId(run.runData).Success? && Truthy(DatasetId(run.runData).value)
            && |items| > 0 && Truthy(Some(items[0])) && Normalize(items[0]).Success?)
      && (r.response.status == 200 ==> r.response == ScrapeSuccess(Normalize(items[0]).value))
      && (|items| > 0 ==> r == Scrape(body, apifyKey, run, DatasetOk(items[..1])))
  {
  }

  /** An empty dataset, or a falsy first item, gives the "No data returned" error,
      except a `null` first item, on which the logging of its keys throws first. */
  lemma NoItemRejected(body: Value, apifyKey: Option<string>, run: RunReply, items: seq<Value>)
    requires Truthy(Get(Some(body), "url")) && Present(apifyKey) && run.RunOk?
    requires DatasetId(run.runData).Success? && Truthy(DatasetId(run.runData).value)
    requires |items| == 0 || !Truthy(Some(items[0]))
    ensures Scrape(body, apifyKey, run, DatasetOk(items)).response ==
      ErrorResponse(if |items| > 0 && items[0].Null? then ObjectKeysNullText else NoItemText)
  {
  }

  /** Every response is either the success envelope holding a well-formed record, or
      status 500 with an `error` message. */
  lemma ScrapeEnvelope(body: Value, apifyKey: Option<string>, run: RunReply, dataset: DatasetReply)
    ensures var r := Scrape(body, apifyKey, run, dataset).response;
      || (exists l :: WellFormedListing(l) && r == ScrapeSuccess(l))
      || (r.status == 500 && Get(Some(r.body), "error").Some? && !Truthy(Get(Some(r.body), "success")))
  {
    var r := Scrape(body, apifyKey, run, dataset);
    if r.response.status == 200 {
      var item := dataset.items[0];
      NormalizeWellFormed(item);
      assert WellFormedListing(Normalize(item).value) && r.response == ScrapeSuccess(Normalize(item).value);
    }
  }
}
