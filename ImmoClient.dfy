/** The client call of the scrape function (`scrapeImmoscout` in src/api2_immo.ts) and
    how its result relates to the server's normalised record. */
module ImmoClient {
  import opened Js
  import opened Envelope
  import ScrapeListing

  const DefaultMessage: string := "Failed to scrape property"

  /** Lines 15-19: `{url}`. */
  function RequestBody(url: string): (body: Value)
    ensures Get(Some(body), "url") == Some(Str(url))
  {
    Obj(map["url" := Str(url)])
  }

  /** The server's `url` check passes exactly for a non-empty url. */
  lemma RequestBodyAccepted(url: string, apifyKey: Option<string>, run: ScrapeListing.RunReply,
                            dataset: ScrapeListing.DatasetReply)
    ensures (ScrapeListing.Scrape(RequestBody(url), apifyKey, run, dataset).response == ErrorResponse("URL is required"))
        <==> url == ""
  {
    if url != "" {
      var r := ScrapeListing.Scrape(RequestBody(url), apifyKey, run, dataset).response;
      if r.status == 500 {
        assert Get(Some(r.body), "error") != Some(Str("URL is required"));
      }
    }
  }

  /** Lines 22-31: `data.data`, unchanged (`None` for `undefined`), or the thrown message. */
  function ScrapeImmoscout(inv: Invocation): (r: Result<Option<Value>, Value>)
    ensures r.Success? <==> inv.error.None? && Truthy(Get(inv.data, "success"))
    ensures r.Success? ==> r.value == Get(inv.data, "data")
    ensures r.Failure? ==> r == Failure(Unwrap(inv, DefaultMessage).error)
  {
    match Unwrap(inv, DefaultMessage)
    case Failure(e) => Failure(e)
    case Success(data) => Success(Get(Some(data), "data"))
  }

  /** End to end: when the server's response reaches the client unchanged, a successful
      scrape gives the client the server's normalised first item, which reads back as
      the same record; its `address` may be `null` although the declared shape says
      string. A failed scrape makes the client throw. */
  lemma ClientSeesListing(body: Value, apifyKey: Option<string>, run: ScrapeListing.RunReply, items: seq<Value>)
    ensures var server := ScrapeListing.Scrape(body, apifyKey, run, ScrapeListing.DatasetOk(items));
      var r := ScrapeImmoscout(Invocation(None, Some(server.response.body)));
      && (r.Success? <==> server.response.status == 200)
      && (r.Success? ==>
            var listing := ScrapeListing.Normalize(items[0]).value;
            && r.value == Some(ScrapeListing.ListingValue(listing))
            && ScrapeListing.ListingFromValue(r.value.value) == Some(listing)
            && ScrapeListing.WellFormedListing(listing))
  {
    ScrapeListing.ScrapeSucceedsOnFirstItem(body, apifyKey, run, items);
    ScrapeListing.ScrapeEnvelope(body, apifyKey, run, ScrapeListing.DatasetOk(items));
    var server := ScrapeListing.Scrape(body, apifyKey, run, ScrapeListing.DatasetOk(items));
    if server.response.status == 200 {
      var listing := ScrapeListing.Normalize(items[0]).value;
      ScrapeListing.ListingRoundTrip(listing);
      ScrapeListing.NormalizeWellFormed(items[0]);
    }
  }

  /** A listing whose address is `null` exists: the declared `address: string` is not
      guaranteed. */
  lemma AddressMayBeNull()
    ensures ScrapeListing.Normalize(Obj(map[])) == Success(ScrapeListing.Listing(Str("Untitled Property"), Null, []))
  {
  }
}
