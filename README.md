# Bilibili cover loader, modelled in Dafny

`js/bilibili-cover.js` finds a cover image for every `<img data-bv="…">`
placeholder on a page. For a video identifier (a BV number) it tries five
CDN hosts, `i0.hdslb.com` to `i4.hdslb.com`, and three URL templates per
host, for 15 candidate URLs in a fixed priority order. The first candidate
whose test image loads is written into the placeholder's `src` and
memoised in the page-wide cache `window.bilibiliCoverCache`. The
`data-bv` marker is then removed. A load error and the 3000 ms timeout
both move on to the next candidate. If all 15 fail, the placeholder is
left as it was. An identifier that is already cached is applied at once,
with no probe.

The model has four modules:

- `Wrappers` holds the `Option` type.
- `CoverUrls` covers the `switch` that builds a candidate URL, the
  priority order of the 15 candidates, and `ParseCoverUrl`. That parser
  reads a URL back into its (host, format) pair, which shows that the
  templating is exact and, for a fixed identifier, injective in (host,
  format).
- `Probing` models `tryLoadCover` as a recursive function (`TryLoadCover`)
  over a probe oracle. The oracle says how each probe settles: `Loaded`,
  `Errored` or `TimedOut`. The function returns the trace of URLs probed
  and the URL committed. The lemmas show that this is exactly a
  first-success search over the candidates in priority order.
- `CoverLoader` holds the state the script changes in place. `CoverCache`
  is a class holding the cache map. `Thumb` is a placeholder with `src`
  and `data-bv`. The methods cover:
  - `StartCover`: the synchronous part of the `forEach` callback (skip,
    cache hit, or start a chain);
  - `RunChain`: a chain that has settled, with its commit to the
    placeholder and the cache;
  - `LoadAll`: the whole pass, in which every callback runs first and
    then every chain settles.

The oracle is a total function from URL to outcome. The 15 candidates of
one identifier are pairwise distinct (`CandidatesDistinct`), so for one
chain this oracle is as general as a separate outcome for each of the 15
probes. Across chains, identifiers that share a candidate URL get the
same outcome for it.

## Model

| member | source | states |
|---|---|---|
| CoverUrls.CoverUrl | js/bilibili-cover.js:44-53 | The URL template for host `d` and format `f` < 3. It has no contract of its own; `ParseCoverUrlRoundTrip` and `ParseCoverUrlSound` state what it builds, and `FirstCandidateExample` writes one out. |
| CoverUrls.FirstCandidateExample | js/bilibili-cover.js:46 | The first candidate of `BV1xx411c7mD` is `https://i0.hdslb.com/bfs/archive/BV1xx411c7mD.jpg`. |
| CoverUrls.Candidates | js/bilibili-cover.js:24-30 | An identifier has exactly 15 candidates: 3 templates on each of 5 hosts. |
| CoverUrls.CandidatesFromAt | js/bilibili-cover.js:33-58 | Counting from host `d`, host `e` with format `f` sits at position `3 * (e - d) + f`. |
| CoverUrls.CandidateAt | js/bilibili-cover.js:24-58 | Candidate `k` is host `k / 3` with format `k % 3`. So hosts i0 to i4 are tried in turn, and formats 0, 1, 2 within a host. |
| CoverUrls.ParseCoverUrlRoundTrip | js/bilibili-cover.js:44-53 | Parsing the URL built for host `d` and format `f` gives back exactly `(d, f)`. |
| CoverUrls.ParseCoverUrlSound | js/bilibili-cover.js:44-53 | Any URL that parses as `(d, f)` is exactly `https://` + host + `/bfs/archive/` + the identifier, inserted verbatim, + the suffix of format `f`. |
| CoverUrls.CandidatesDistinct | js/bilibili-cover.js:24-53 | The 15 candidates of one identifier are pairwise different URLs. |
| CoverUrls.CandidateNonEmpty | js/bilibili-cover.js:41-53 | No candidate is the empty string, so a cached candidate passes the truthiness test of the cache lookup. |
| Probing.TryLoadCover | js/bilibili-cover.js:33-89 | `tryLoadCover(domainIndex, formatIndex)` as a recursive function over the probe oracle, terminating on (hosts left, formats left). It has no contract of its own; its specification is `TryLoadCoverSearches`. |
| Probing.Resolve | js/bilibili-cover.js:92 | The chain started by `tryLoadCover()` with its default arguments (line 33). It has no contract of its own; `ResolveFirstSuccess`, `ResolveExhausted`, `ProbesAreCandidates` and `ResolvedIsCandidate` state what it does. |
| Probing.TryLoadCoverSearches | js/bilibili-cover.js:33-85 | From any cursor (host, format ≤ 3), the chain probes the remaining candidates in order until one loads. It commits that one and probes nothing after it. If none loads, it probes all of them and commits nothing. Format index 3 probes nothing and moves on to the next host at format 0. |
| Probing.ResolveFirstSuccess | js/bilibili-cover.js:68-77 | If candidate `k` is the first to load, the chain probes candidates 0..k in order, commits candidate `k`, and probes no later candidate. |
| Probing.ResolveExhausted | js/bilibili-cover.js:34-38 | If no candidate loads, all 15 are probed and nothing is committed. |
| Probing.ResolveSecondHost | js/bilibili-cover.js:54-57 | If the three host i0 candidates fail and the host i1 `.jpg` candidate loads, exactly those four URLs are probed and the i1 URL is committed. Hosts i2 to i4 are never probed. |
| Probing.TimeoutIsFailure | js/bilibili-cover.js:64-85 | A timeout is handled exactly like a load error. Two oracles that agree on which URLs load give the same chain, whatever they say about how the other URLs fail. |
| Probing.ProbesAreCandidates | js/bilibili-cover.js:33-58 | A chain probes at most 15 URLs, and its `i`-th probe is the template for host `i / 3` and format `i % 3`. So format index 3 is never probed and the recursion ends. |
| Probing.ResolvedIsCandidate | js/bilibili-cover.js:73-74 | A committed URL is always one of the identifier's 15 candidates. |
| CoverLoader.Lookup | js/bilibili-cover.js:17 | The truthiness test on `window.bilibiliCoverCache[bv]`. It has no contract of its own; `LookupHitsCached` states it under the cache invariant. |
| CoverLoader.StartOf | js/bilibili-cover.js:13-21 | What the `forEach` callback decides synchronously: skip, apply a cache hit, or start a chain. It has no contract of its own; `CachedAppliedAtOnce`, `LaunchedOnMiss` and `StartCover` state it. |
| CoverLoader.LookupHitsCached | js/bilibili-cover.js:17 | Under the cache invariant, the truthiness test finds a hit exactly when the identifier is a key, and the hit is the cached value. |
| CoverLoader.CachedAppliedAtOnce | js/bilibili-cover.js:16-21 | A cached, non-empty identifier is applied from the cache and starts no chain, so it costs no probe. |
| CoverLoader.LaunchedOnMiss | js/bilibili-cover.js:13-21 | A chain is started only for the placeholder's own non-empty identifier, and only when the cache lookup misses. |
| CoverLoader.FinalLookOutcome | js/bilibili-cover.js:12-93 | After the pass, a placeholder's `src` is one of its identifier's candidates, with the marker removed, or the placeholder is unchanged. It is unchanged exactly when the identifier was not cached and all 15 candidates failed. |
| CoverLoader.CoverCache.constructor | js/bilibili-cover.js:7 | A new cache is empty and satisfies the cache invariant. |
| CoverLoader.CoverCache.Put | js/bilibili-cover.js:74 | Writing the cache changes only key `bv`, which now holds the given URL. Since only a candidate of `bv` is ever written, the cache keeps its invariant. |
| CoverLoader.Thumb.constructor | js/bilibili-cover.js:13 | A placeholder holds the `src` and `data-bv` value it is given. |
| CoverLoader.EnsureCache | js/bilibili-cover.js:7 | An existing cache is reused as it is. Otherwise a fresh, empty cache is created. Either way the result satisfies the cache invariant. |
| CoverLoader.OnReady | js/bilibili-cover.js:5-93 | The `DOMContentLoaded` handler: the cache is reused or created, then the pass runs against it. Each placeholder ends as `FinalLook` of the cache before the pass says, and the cache gains exactly what the chains learned. |
| CoverLoader.FirstCandidateScenario | js/bilibili-cover.js:68-77 | On a fresh page, a placeholder for `BV1xx411c7mD` whose first candidate loads ends with `src` set to `https://i0.hdslb.com/bfs/archive/BV1xx411c7mD.jpg` and no marker. The cache then holds exactly that one entry. |
| CoverLoader.StartCover | js/bilibili-cover.js:13-21 | A missing or empty identifier is skipped. On a cache hit, `src` becomes the cached URL, the marker is removed and no chain starts. On a miss, a chain is started for the identifier and the placeholder is left alone. The cache is never written here. |
| CoverLoader.RunChain | js/bilibili-cover.js:68-77 | The chain's trace is the first-success resolution. On success, `src` and `cache[bv]` both become the winning URL, the marker is removed, and the cache keeps its invariant. On exhaustion, neither the placeholder nor the cache changes. |
| CoverLoader.Settle | js/bilibili-cover.js:92 | When a chain was started for a placeholder, it settles as `RunChain` says. Otherwise nothing changes. |
| CoverLoader.StartAll | js/bilibili-cover.js:12-21 | Every callback runs against the cache as it was before the pass. It reports which chain it started, and each placeholder ends as `StartLook` says. |
| CoverLoader.SettleAll | js/bilibili-cover.js:68-85 | Each placeholder ends as its chain's outcome says. The cache gains exactly what the settled chains learned and keeps its invariant. |
| CoverLoader.LoadAll | js/bilibili-cover.js:12-93 | This is the whole pass. Each placeholder ends as `FinalLook` says, and the cache gains exactly what the chains learned. |
| CoverLoader.LearnedEntries | js/bilibili-cover.js:74 | The pass adds only identifiers whose chain was started, each mapped to the URL its chain committed. Every started chain that commits leaves its identifier in the cache. |
| CoverLoader.LaunchedNotCached | js/bilibili-cover.js:17-21 | While cached values are truthy, no callback starts a chain for a cached identifier. |
| CoverLoader.LoadAllKeepsEntries | js/bilibili-cover.js:74 | The pass only adds to the cache. No entry that existed before is overwritten or removed. |
| CoverLoader.ValidTruthy | js/bilibili-cover.js:17 | The cache invariant (every value is a candidate of its key) makes every cached value truthy. |

## Left out

- DOM wiring is not modelled: `DOMContentLoaded`, `querySelectorAll` and the real `img` element (lines 5, 10). A placeholder is a `Thumb` holding `src` and the optional `data-bv` value, and the pass receives the placeholders as a sequence.
- The browser's `Image` loading, `setTimeout`/`clearTimeout` and the 3000 ms delay (lines 61-66, 88) are I/O and timers. They are replaced by the probe oracle, which is passed in as a parameter.
- The timeout race: line 65 calls `onerror` with no guard, so after a probe has timed out, a late `onload` can still commit a stale URL, and a late `onerror` can re-enter line 84 and start a second chain. The model gives each probe exactly one settled outcome. It does not model the late callback, and it claims no settle-once behaviour for the source. A settle-once guard is a design recommendation that the code does not implement, and the model follows the code.
- LoadAll: chains settle one after another in document order, after all callbacks. Interleavings of concurrently running chains are not modelled. That includes two placeholders with the same identifier, and different identifiers that share a candidate URL: the oracle is keyed by URL, so it gives such chains the same outcome for that URL, for example `A` with format 2 and `A@320w_180h_1c` with format 0 on the same host. Chains never read the cache and a fixed oracle makes equal identifiers commit equal URLs, but order independence is argued here, not proved.
- `console.log` messages and the global `window.onerror` handler (lines 36, 76, 97-100) are logging and browser plumbing.
- Identifiers that name JavaScript prototype properties, such as `constructor` or `__proto__`, would make the cache lookup read an inherited property. The cache is modelled as a plain map.
- TryLoadCover: requires a format index of at most 3, since every call site keeps it there. A format index of 4 or more is unreachable in the source; from there the code would probe the empty URL again and again.
