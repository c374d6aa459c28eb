/** The RxJS observables the core hands around, as abstract handles. A
    handle names where its value comes from; subscribing, sharing and
    scheduling are not modelled. */
module Streams {
  import opened Values

  datatype Stream =
      /** `httpClient.get(url)`: emits the response body. */
    | HttpGet(url: Value)
      /** `source.pipe(map(r => { simplifySchema(r); return r; }))`. */
    | Simplified(source: Stream)
      /** The stream `CacheItem.setValue` builds over `source`: it records the
          emitted value in its cache item and is `share()`d between subscribers. */
    | Shared(source: Stream)
      /** `of(value)`: emits a value that is already known. */
    | Of(value: Value)
}
