/** The cached exchange (cache/CatchEntry.cs): the derived token, the
    audience recorded when it was obtained, and its absolute expiry, held in
    Unix seconds. The C# class has get-only properties set by its primary
    constructor, so it is a value type here; its `Length` counts characters
    where C# counts UTF-16 code units. */
module CacheEntries {

  datatype CacheEntry = CacheEntry(oboToken: string, origAud: string, expiry: int) {

    /** The weight charged against the cache's size budget. */
    function Length(): (n: nat)
      ensures n >= |oboToken| && n >= |origAud|
      ensures n == 0 <==> oboToken == "" && origAud == ""
      ensures n - |oboToken| == |origAud|
    {
      |oboToken| + |origAud|
    }
  }
}
