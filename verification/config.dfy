/** The configuration constants at the top of assets/js/script.js. */
module Config {

  /** Origin prefixed to every media path served by the content API. */
  const ApiBaseUrl: string := "http://localhost:1337"

  /** Caching is switched on for every call unless a call says otherwise. */
  const CacheEnabled: bool := true

  /** Five minutes, in milliseconds. */
  const CacheTtlMs: int := 1000 * 60 * 5

  /** Widths at or below this many CSS pixels get no scroll-animation attributes. */
  const AosMobileBreakpoint: int := 768
}
