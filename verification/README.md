# Content renderer core: session-cached fetch, media URLs, rich text

This project models the logic core of a static site's client script,
`assets/js/script.js`. The script fetches company content from a headless
content API and renders it into the page. The model covers four parts:

- **Session-cached fetch (`safeFetch`).** This is a pure step function over
  the session storage, the session-wide `CACHE_DISABLED` kill switch, the
  call's options (`cacheKey`, `ttl`, `useCache`) and a `World`. The `World`
  holds the clock when the call starts, the network's answer, the clock when
  that answer has been decoded, and whether the storage refuses a write. A
  further flag says whether every storage access throws (blocked storage). A
  stored entry is `Stored(ts, value)`, `Untimed` or `Corrupt`:
  - `Stored(ts, value)` parses to an object whose `_ts` the subtraction
    `Date.now() - obj._ts` turns into the number `ts`. That covers a number,
    but also a numeric string, `null` (0), `true` (1) or `[x]` (x).
  - `Untimed` parses, but its `_ts` becomes NaN in that subtraction (it is
    missing, non-numeric or an object). The age test then fails, so it is
    evicted like a stale entry.
  - `Corrupt` is empty, unparseable or `null`. It is a miss and stays in
    storage.

  The step is split into its synchronous read (`Begin`: serve, or evict and
  go to the network) and its asynchronous completion (`Settle`: decide the
  result and write back). This split lets the model state what two
  overlapping calls for the same key do.
- **Media URL resolution (`getImageUrl`).** It takes one of the API's three
  media shapes and an optional size key. The result is the origin
  `http://localhost:1337` followed by a path held in the object, or nothing.
- **Rich-text rendering (`renderRichTextDOM`, `renderChildrenDOM`).** The
  input is the block/inline tree, read property by property (`type`, `level`,
  `format`, `children`, `text`, `url`, the mark flags, `aos`, `aosDuration`).
  The output is an element tree built node by node. The model proves three
  things about it:
  - the tag, style and attribute rules, including the `code` override, the
    link attributes, the heading clamp, ordered and unordered lists, and the
    animation attributes above the 768 px breakpoint;
  - a safety invariant on the whole emitted tree;
  - that the author's text reaches the output whole, once and in order.
- **Small helpers.** These are `formatUgandaPhone`, `setImageSize` (the image
  size tier for a viewport width) and `addMemberCacheKey`.

The JSON value type of the cache is a type parameter. A value the cache
writes as `{_ts, value}` and parses back is taken to be the same value.

Some behaviours of the script that the model keeps as they are:

- `getImageUrl` tries the shapes in order. A flat `url` that is a string
  decides the result, even when it is the empty string. Otherwise it tries
  `data.attributes`, and when that yields no path it goes on to
  `attributes`.
- An entry is stored with its write time only. Each reader compares the
  entry's age with the `ttl` of its own call.
- A heading level outside 1..6, or a missing one, gives `h3`.
- A `href` is the author's `url`, or `#` when the url is missing or empty.
  No URL scheme is filtered, so `LinkShape` states the href as given. The
  safety invariant is structural: fixed tags, fixed attribute names, text
  only in text nodes, and anchors that always open without opener or
  referrer.

## Model

| member | source | states |
|---|---|---|
| `SessionCache.Begin` | assets/js/script.js:38-52 | the read serves the stored value exactly when an entry's age is strictly below the TTL; otherwise a stale or untimed entry is removed, a corrupt one stays, and every other key is untouched |
| `SessionCache.Settle` | assets/js/script.js:54-68 | a network failure, a status outside 200..299 (carrying url and status) or an undecodable body rejects and writes nothing; a decoded body resolves to itself and is stored as `{_ts: arrival time, value}` under the key unless caching is off or the write fails |
| `SessionCache.SafeFetch` | assets/js/script.js:33-69 | no network call iff a fresh entry exists (age equal to the TTL is a miss); a hit returns the stored value and changes nothing; kill switch or no key leaves storage untouched; only the call's own key can change; a rejection only ever removes; success returns the JSON unchanged and stores it when caching applies |
| `SessionCache.CacheRoundTrip` | assets/js/script.js:38-68 | after a miss that stores a value, a later call with the same key is served that value without a network call exactly while the entry's age is below the TTL |
| `SessionCache.DisabledBypassesStore` | assets/js/script.js:35-38 | with `CACHE_DISABLED` set, a call leaves every stored entry and timestamp as it was and always goes to the network |
| `SessionCache.DisabledSessionKeepsStore` | assets/js/script.js:35-36 | any sequence of calls with the kill switch set leaves storage unchanged, so disabling loses no data |
| `SessionCache.WriteFailureInvisible` | assets/js/script.js:59-67 | whether the storage write throws never changes what the caller receives |
| `SessionCache.MemberDetailCallCaches` | assets/js/script.js:540 | the member detail request, which passes only its `member_<name>` key, is cached under that key for the default five minutes unless the kill switch is set |
| `SessionCache.SafeFetchGuarded` | assets/js/script.js:38-67 | with the kill-switch read guarded like the other storage accesses, blocked storage makes the call go to the network, leave storage alone and settle exactly as any fetching call does; with storage available it is the modelled step |
| `SessionCache.BlockedStorageAbortsCall` | assets/js/script.js:35-68 | with blocked storage and any answer of the world, the code as written throws before fetching, while the guarded code fetches, leaves storage as it was and settles with the network's own outcome (so an OK JSON response is delivered only by the guarded code); with storage available the two agree |
| `SessionCache.OverlappingMissesConverge` | assets/js/script.js:38-68 | two overlapping calls for the same key that both miss are not deduplicated; both resolve with their JSON, and storage ends with the entry written by the call settling last, other keys untouched |
| `Media.GetImageUrl` | assets/js/script.js:72-112 | null input gives none; any url returned is the origin followed by a path the media object actually holds |
| `Media.PrefersSizedFormat` | assets/js/script.js:82-106 | when the size key names a `formats` entry with a url in the shape that decides the result, that entry's url wins over the base url |
| `Media.FallsBackToBaseUrl` | assets/js/script.js:82-106 | without a usable size-specific url, the deciding shape's base url is used |
| `Media.NoneIffNoShapeResolves` | assets/js/script.js:79-111 | the result is none exactly when no shape, tried in order, yields a path |
| `Media.FlatShapeShadowsWrappers` | assets/js/script.js:82-88 | a flat string `url` decides the result alone; the wrappers are never consulted |
| `Media.DataShapeShadowsAttributes` | assets/js/script.js:91-106 | when `data.attributes` yields a path, the `attributes` wrapper is never consulted |
| `Media.ViewportTierSelectsFormat` | assets/js/script.js:353 | the image the page requests with `setImageSize()` is the deciding shape's `formats` entry under the viewport tier's key when it has a url, else its base url, else none; viewports of different tiers ask under different keys |
| `Media.Examples` | assets/js/script.js:72-112 | `{url:'/x.png', formats:{small:{url:'/x-small.png'}}}` gives origin+`/x-small.png` for `small` and origin+`/x.png` for `large`; `{}` gives none |
| `RichText.RenderChildren` | assets/js/script.js:162-215 | a missing or non-array `children` renders nothing; whatever is rendered is a run of `span`, `code` and `a` elements, never a bare text node |
| `RichText.RenderInline` | assets/js/script.js:166-211 | a node without a type renders nothing; a text or link node renders to exactly one element; every node rendered is a `span`, `code` or `a` element |
| `RichText.RenderBlock` | assets/js/script.js:127-156 | a block is the element its type selects, with no inline style, carrying exactly `data-aos` and `data-aos-duration` when motion is on and no attribute otherwise; a list holds only `li` elements, any other block only inline elements |
| `RichText.ListItems` | assets/js/script.js:139-143 | a list holds one `li` per non-null item, in order, each wrapping the rendering of that item's children |
| `RichText.RenderBlocks` | assets/js/script.js:124-157 | null or typeless blocks leave no trace; every other block is rendered on its own, in order |
| `RichText.RenderRichText` | assets/js/script.js:117-160 | a non-array or empty input gives an empty fragment; otherwise one `div` with one element per kept block, with the tag its type selects, carrying `data-aos` and `data-aos-duration` iff the viewport is wider than 768 px |
| `RichTextLemmas.TextNodeShape` | assets/js/script.js:169-193 | a text node becomes one leaf with no nested elements; `code` gives a bare `code` element with no style; otherwise a `span` with fontWeight 600 iff bold, italic iff italic, textDecoration iff underline or strikethrough, joined underline first |
| `RichTextLemmas.TextStyleShape` | assets/js/script.js:182-189 | a plain text node's style has exactly one declaration per set flag: fontWeight 600 for bold, italic for italic, and a textDecoration listing underline before line-through |
| `RichTextLemmas.LinkShape` | assets/js/script.js:195-203 | a link becomes one anchor with href `url` or `#`, target `_blank`, rel `noopener noreferrer`, wrapping its children's rendering |
| `RichTextLemmas.UnknownInlineDegrades` | assets/js/script.js:166-211 | an inline node without a type is skipped; one of unknown type degrades to the rendering of its children, nothing when it has none |
| `RichTextLemmas.HeadingTagFollowsLevel` | assets/js/script.js:131-132 | the heading tag is `h<level>` for a level in 1..6 and `h3` otherwise |
| `RichTextLemmas.BlockShape` | assets/js/script.js:130-154 | heading, paragraph, list (`ol` iff `format` is `ordered`) and unknown (`div`) blocks get their tag and content; animation attributes with defaults `fade-up`/`700` iff motion is on |
| `RichTextLemmas.InlineSafe` | assets/js/script.js:162-215 | every node the inline renderer emits is built from allowed tags, attributes and styles, with text only in text nodes and every anchor opening without opener or referrer |
| `RichTextLemmas.RenderRichTextSafe` | assets/js/script.js:117-215 | for every input whose heading levels are integers or absent, the whole rendered document satisfies that safety invariant |
| `RichTextLemmas.InlineTextPreserved` | assets/js/script.js:162-215 | the inline renderer neither drops, duplicates nor reorders the text of the nodes it reaches |
| `RichTextLemmas.RenderRichTextKeepsText` | assets/js/script.js:117-215 | the rendered document's text is exactly the author's text of the kept blocks, in order |
| `RichTextLemmas.OutOfRangeHeadingExample` | assets/js/script.js:130-133 | a heading at level 9 holding "Hi" renders as `h3` whose text is "Hi" |
| `RichTextLemmas.EmptyInputExample` | assets/js/script.js:119 | an empty array, a missing value and a non-array all render to an empty fragment |
| `RichTextAsWritten.ItemsAsWritten` | assets/js/script.js:139-143 | the items loop as written throws exactly when an item is null, and otherwise produces the model's items |
| `RichTextAsWritten.BlockAsWritten` | assets/js/script.js:130-148 | a block as written throws exactly when it is a list with a non-array `children` or a null item |
| `RichTextAsWritten.BlocksAsWritten` | assets/js/script.js:124-157 | one throwing block aborts the whole loop; otherwise the blocks agree with the model |
| `RichTextAsWritten.RenderRichTextAsWritten` | assets/js/script.js:117-160 | the render as written throws exactly when some kept list block has a non-array `children` or a null item, and otherwise equals the model's render |
| `RichTextAsWritten.NullListItemAbortsRender` | assets/js/script.js:139-141 | a paragraph followed by a list holding one null item makes the written render throw, while the model renders the paragraph and an empty `ul` |
| `Viewport.ImageSize` | assets/js/script.js:280-285 | `small` iff width ≤ 600, `medium` iff 600 < width ≤ 1200, `large` iff width > 1200 |
| `Viewport.ImageSizeMonotone` | assets/js/script.js:280-285 | a wider viewport never gets a smaller size tier |
| `Viewport.MotionBreakpoint` | assets/js/script.js:122 | animations start strictly above 768 px (none at 768, on at 769) and stay on for every wider viewport; an animated viewport never gets the small image tier, and a large-tier one always animates |
| `Phone.FormatUgandaPhone` | assets/js/script.js:294-309 | the output is `+256 ddd ddd ddd` with the same digits exactly when the input, with everything but digits and `+` removed, is `+256` and nine digits; any other input is returned unchanged |
| `Phone.FormatIdempotent` | assets/js/script.js:294-308 | formatting a formatted number changes nothing |
| `Phone.SpacedFormHandledByFirstBranch` | assets/js/script.js:296-306 | the "already formatted" branch never answers: every input it matches is caught by the first branch, which returns it unchanged when its separators are spaces |
| `Phone.CleanOfDisplay` | assets/js/script.js:296-301 | removing everything but digits and `+` from the display form gives back the compact number |
| `CacheKeys.AddMemberCacheKey` | assets/js/script.js:312-317 | `member_<name>` ends up in the list; the old keys keep their order in front; the list grows by one iff the key was absent; no duplicates are introduced |
| `CacheKeys.AddMemberCacheKeyIdempotent` | assets/js/script.js:312-317 | registering the same member twice equals registering it once |
| `CacheKeys.MemberKeysNeverCollide` | assets/js/script.js:1092-1100 | a member's `member_<name>` key is never one of the seven collection keys, so the two kinds of entry never overwrite each other |
| `CacheKeys.RegisteredKeysStayDistinct` | assets/js/script.js:312-317 | registering any sequence of members keeps the earlier keys in front in order, adds every member's key, and keeps a list free of duplicates |
| `CacheKeys.SessionKeyList` | assets/js/script.js:1092-1100 | starting from the collection keys, a session's list holds those seven first, every registered member's key once, and no member key equal to a collection key |

## Findings

| source | as written | input that shows it | evidently intended | confidence | as-written member | corrected member |
|---|---|---|---|---|---|---|
| assets/js/script.js:139-141 | `(block.children \|\| []).forEach(item => … item.children …)` | a paragraph block followed by a list block whose `children` is `[null]`; also a list whose `children` is a truthy non-array such as `{}` | skip null items and read a non-array `children` as no items, as the renderer's other guards do, so that the other blocks still render | medium; not executed | `RichTextAsWritten.RenderRichTextAsWritten` with `RichTextAsWritten.NullListItemAbortsRender` | `RichText.RenderBlocks` with `RichText.ListItems` |
| assets/js/script.js:35 | `const cacheDisabled = sessionStorage.getItem('CACHE_DISABLED') === '1';` outside any `try` | a page whose browser denies it `sessionStorage`, so that every access throws | read the flag under the same `try`/`catch` as the entry read and the write, so that blocked storage only loses caching and the call still fetches | medium; not executed | `SessionCache.BlockedStorageAbortsCall`, about `SessionCache.SafeFetchAsWritten` | `SessionCache.SafeFetchGuarded` |

On that input the written code reads `children` of `null`, or calls the
missing `forEach` of a non-array. The TypeError escapes `renderRichTextDOM`,
so the caller gets no rendering at all: the paragraph is lost too. Everywhere
else the renderer skips null or typeless nodes and non-array `children`. The
rest of the model uses the corrected list rendering. `RenderRichTextAsWritten`
proves that the two agree on every input the written code does not throw on.

The second row is about blocked storage. The entry read and the write are
each guarded by a `try`, and a failure there only costs the cache. The flag
read comes before either guard, so the same failure makes `safeFetch` throw
synchronously instead of returning a promise. The callers attach `.catch` to
that promise, so the error is never seen there. It escapes the `populate*`
function, and the startup handler stops before the remaining sections. The
other cache lemmas are about available storage, where the guarded and the
written call are the same step.

## Left out

- Network I/O, promise scheduling and `console.warn` are left out. The
  network's answer and the clock readings are inputs (`World`). The two
  `Date.now()` readings become `now` (read path) and `later` (write path).
- `RichTextLemmas.RenderRichTextSafe`: covers integer or absent heading
  levels only. A non-integer level that passes the range test makes the
  script emit a heading tag outside the allowed set, such as `h2.5`.
- `SessionCache.SafeFetchAsWritten`: storage is either fully available or
  blocked for every access. A storage on which only some accesses throw is
  not modelled.
- `CACHE_DISABLED` is its own boolean. In the source it is a key of the same
  session storage. A call whose `cacheKey` is the flag's own key is not
  modelled.
- The model does not reproduce every JavaScript coercion:
  - a stored `_ts` that coerces to a number is taken to coerce to an
    integer; a fractional one is not modelled;
  - url, text, `aos` and `aosDuration` values are strings or absent,
    never numbers or objects;
  - heading levels are integers or absent. A level such as `2.5`, `true` or
    `"1e0"` passes the range test and gives the unknown element `h2.5`,
    `htrue` or `h1e0`, which these types cannot express;
  - `formatUgandaPhone`'s `raw` is a string, its documented type (on a
    number, `raw.replace` throws);
  - mark flags are booleans (their truthiness).
- `Media.GetImageUrl`: a url that is a non-string truthy value (stringified
  by the template literal) is not modelled, and an absent `formats` is
  modelled as an empty one. Both read the same in the source.
- `injectRichText` (staging container, `data-injected` marker, AOS refresh
  and timer fallback) is left out. It is timer- and third-party-driven DOM
  mutation.
- `populate*`, `renderSingleTeamMember` and the other card builders are left
  out. They are presentational templating over `innerHTML`.
- `makeStars` is left out: it works on floating-point ratings.
- `getMemberIdentifierFromURL` is left out: it relies on `URLSearchParams`
  and `decodeURIComponent`.
- Department sorting is left out: it uses `localeCompare`.
- The dev-only clear-cache button, the toast and `formatPhoneLinks` are left
  out. They are UI, and `formatPhoneLinks` duplicates the phone logic. The
  button's handler declares its own local `keysToClear` from the base keys,
  so the `member_` keys that `addMemberCacheKey` records are never cleared
  by it.
- `getEl` and `safeAppend` are left out. They are DOM lookups.
- assets/js/old-script.js is not part of this model. It only builds markup
  strings over `fetch`, and its `parseField` is empty.
