/**
 * The map link that `openMap` opens for an address. Percent-encoding is the
 * browser's `encodeURIComponent` and is passed in as `encode`.
 */
module MapLink {

  const SearchPrefix: string := "https://www.google.com/maps/search/?api=1&query="

  /** The map-search URL: the fixed search prefix followed by the encoded address as the query. */
  function MapUrl(address: string, encode: string -> string): (url: string)
    ensures |url| == |SearchPrefix| + |encode(address)|
    ensures url[..|SearchPrefix|] == SearchPrefix
    ensures url[|SearchPrefix|..] == encode(address)
  {
    SearchPrefix + encode(address)
  }

  /** Two addresses give the same URL exactly when they encode to the same query. */
  lemma MapUrlDeterminesQuery(a: string, b: string, encode: string -> string)
    ensures MapUrl(a, encode) == MapUrl(b, encode) <==> encode(a) == encode(b)
  {
  }
}
