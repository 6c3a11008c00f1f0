/** How the page's remote calls meet the offline wrapper. */
module Integration {
  import opened Storefront
  import opened ServiceWorker

  /** The catalog and order endpoints are on the API host, so the fetch
      handler never answers them, from the cache or otherwise, whatever
      origin the worker runs on. */
  lemma EndpointsBypassCache(origin: string, pathname: string, selfOrigin: string)
    ensures Classify(Request(origin, pathname, ORDER_API_ENDPOINT), selfOrigin) == PassThrough
    ensures Classify(Request(origin, pathname, CATALOG_API_ENDPOINT), selfOrigin) == PassThrough
  {
    assert APPS_SCRIPT_ORIGIN[8..] == API_HOST;
    assert ORDER_API_ENDPOINT[8..][..|API_HOST|] == APPS_SCRIPT_ORIGIN[8..];
    ContainsAt(ORDER_API_ENDPOINT, API_HOST, 8);
    assert CATALOG_API_ENDPOINT[8..][..|API_HOST|] == APPS_SCRIPT_ORIGIN[8..];
    ContainsAt(CATALOG_API_ENDPOINT, API_HOST, 8);
  }
}
