/**
 * The stateful side of the cover loader: the page-wide cache
 * `window.bilibiliCoverCache`, the `<img data-bv>` placeholders, and the
 * per-element callback of the `forEach`. Probing is asynchronous in the
 * browser: the callback only starts a chain, and chains settle later. The
 * model keeps that split: `StartCover` is the synchronous part, `RunChain`
 * a chain that has settled, and `LoadAll` the whole pass.
 */
module CoverLoader {
  import opened Wrappers
  import opened CoverUrls
  import opened Probing

  /** Every cached URL is a candidate of its own identifier; only such URLs are ever written. */
  ghost predicate ValidEntries(entries: map<string, string>)
  {
    forall bv :: bv in entries ==> entries[bv] in Candidates(bv)
  }

  /** `if (window.bilibiliCoverCache[bv])`: a hit needs an entry whose value is truthy. */
  function Lookup(entries: map<string, string>, bv: string): Option<string>
  {
    if bv in entries && entries[bv] != "" then Some(entries[bv]) else None
  }

  /** What the `forEach` callback does synchronously with one placeholder. */
  datatype Start =
    | Skip                 // `if (!bv) return;`
    | Applied(url: string) // cache hit: applied at once, no probe
    | Launched(bv: string) // cache miss: `tryLoadCover()` starts a chain

  function StartOf(entries: map<string, string>, attr: Option<string>): Start
  {
    match attr
    case None => Skip
    case Some(bv) =>
      if bv == "" then Skip
      else
        match Lookup(entries, bv)
        case Some(url) => Applied(url)
        case None => Launched(bv)
  }

  /** The parts of a placeholder the loader touches: `src` and the `data-bv` attribute. */
  datatype Look = Look(src: string, dataBv: Option<string>)

  /** A placeholder after its callback has run, before any chain settles. */
  function StartLook(entries: map<string, string>, look: Look): Look
  {
    match StartOf(entries, look.dataBv)
    case Applied(url) => Look(url, None)
    case _ => look
  }

  /** A placeholder once the chain for `bv` has settled. */
  function SettleLook(look: Look, bv: string, probe: string -> ProbeResult): Look
  {
    match Resolve(bv, probe).committed
    case Some(url) => Look(url, None)
    case None => look
  }

  /** A placeholder once the chain started for it, if any, has settled. */
  function AfterChain(look: Look, chain: Option<string>, probe: string -> ProbeResult): Look
  {
    match chain
    case Some(bv) => SettleLook(look, bv, probe)
    case None => look
  }

  /** A placeholder once everything has settled, given the cache its callback saw. */
  function FinalLook(entries: map<string, string>, look: Look, probe: string -> ProbeResult): Look
  {
    match StartOf(entries, look.dataBv)
    case Skip => look
    case Applied(url) => Look(url, None)
    case Launched(bv) => SettleLook(look, bv, probe)
  }

  /** Under the cache invariant a lookup hits exactly when the identifier is cached. */
  lemma LookupHitsCached(entries: map<string, string>, bv: string)
    requires ValidEntries(entries)
    ensures Lookup(entries, bv).Some? <==> bv in entries
    ensures bv in entries ==> Lookup(entries, bv) == Some(entries[bv])
  {
    if bv in entries {
      CandidateNonEmpty(bv, entries[bv]);
    }
  }

  /**
   * A cached identifier is applied at once from the cache and starts no
   * chain, so it costs no probe; the empty identifier is skipped first.
   */
  lemma CachedAppliedAtOnce(entries: map<string, string>, bv: string)
    requires ValidEntries(entries) && bv in entries
    ensures StartOf(entries, Some(bv)) == if bv == "" then Skip else Applied(entries[bv])
    ensures LaunchedFor(entries, Some(bv)) == None
  {
    LookupHitsCached(entries, bv);
  }

  /** A chain is started only for the placeholder's own, non-empty identifier, and only on a miss. */
  lemma LaunchedOnMiss(entries: map<string, string>, attr: Option<string>, bv: string)
    requires LaunchedFor(entries, attr) == Some(bv)
    ensures attr == Some(bv) && bv != "" && Lookup(entries, bv) == None
  {
  }

  /**
   * For a placeholder with an identifier: whatever ends up in `src` is one
   * of that identifier's candidate URLs, and the placeholder is left
   * untouched, marker included, exactly when nothing was cached and all 15
   * candidates failed.
   */
  lemma FinalLookOutcome(entries: map<string, string>, look: Look, probe: string -> ProbeResult, bv: string)
    requires ValidEntries(entries)
    requires look.dataBv == Some(bv) && bv != ""
    ensures var r := FinalLook(entries, look, probe);
      (r == look || (r.dataBv == None && r.src in Candidates(bv)))
      && (r == look <==> bv !in entries && Resolve(bv, probe).committed == None)
  {
    LookupHitsCached(entries, bv);
    ResolvedIsCandidate(bv, probe);
  }

  /** `window.bilibiliCoverCache`: identifier to the URL that loaded for it. */
  class CoverCache {
    var entries: map<string, string>

    ghost predicate Valid()
      reads this
    {
      ValidEntries(entries)
    }

    constructor ()
      ensures Valid() && entries == map[]
    {
      entries := map[];
    }

    /**
     * `window.bilibiliCoverCache[bv] = coverUrl`. The only URL ever written
     * is a candidate of `bv`, so the write keeps the invariant.
     */
    method Put(bv: string, url: string)
      requires Valid() && url in Candidates(bv)
      modifies this
      ensures Valid()
      ensures entries == old(entries)[bv := url]
    {
      entries := entries[bv := url];
    }
  }

  /** An `<img data-bv>` placeholder. */
  class Thumb {
    var src: string
    var dataBv: Option<string>

    constructor (src: string, dataBv: Option<string>)
      ensures this.src == src && this.dataBv == dataBv
    {
      this.src := src;
      this.dataBv := dataBv;
    }

    function State(): Look
      reads this
    {
      Look(src, dataBv)
    }
  }

  /** `window.bilibiliCoverCache = window.bilibiliCoverCache || {}`: reuse the cache, else create an empty one. */
  method EnsureCache(existing: CoverCache?) returns (cache: CoverCache)
    requires existing != null ==> existing.Valid()
    ensures cache.Valid()
    ensures existing != null ==> cache == existing
    ensures existing == null ==> fresh(cache) && cache.Valid() && cache.entries == map[]
  {
    if existing != null {
      cache := existing;
    } else {
      cache := new CoverCache();
    }
  }

  /**
   * The synchronous part of the `forEach` callback for one placeholder.
   * A missing or empty identifier is skipped; a cache hit is applied at
   * once and removes the marker, with no chain started; a miss starts a
   * chain for the identifier, returned here. The cache is not written.
   */
  method StartCover(cache: CoverCache, img: Thumb) returns (chain: Option<string>)
    modifies img
    ensures img.State() == StartLook(cache.entries, old(img.State()))
    ensures chain == (match StartOf(cache.entries, old(img.dataBv))
                      case Launched(bv) => Some(bv)
                      case _ => None)
  {
    chain := None;
    var attr := img.dataBv;
    if attr.None? || attr.value == "" {
      return;
    }
    var bv := attr.value;
    if bv in cache.entries && cache.entries[bv] != "" {
      img.src := cache.entries[bv];
      img.dataBv := None;
      return;
    }
    chain := Some(bv);
  }

  /**
   * A chain for identifier `bv`, captured when the callback ran, that has
   * settled. On the first candidate that loads, `src` and `cache[bv]`
   * become its URL and the marker is removed; on exhaustion nothing
   * changes. The cache keeps its invariant.
   */
  method RunChain(cache: CoverCache, img: Thumb, bv: string, probe: string -> ProbeResult) returns (t: Trace)
    requires cache.Valid()
    modifies cache, img
    ensures t == Resolve(bv, probe) && cache.Valid()
    ensures t.committed.Some? ==>
      img.State() == Look(t.committed.value, None)
      && cache.entries == old(cache.entries)[bv := t.committed.value]
    ensures t.committed.None? ==> unchanged(img) && unchanged(cache)
  {
    t := Resolve(bv, probe);
    ResolvedIsCandidate(bv, probe);
    if t.committed.Some? {
      var url := t.committed.value;
      img.src := url;
      cache.Put(bv, url);
      img.dataBv := None;
    }
  }

  /** The identifier of the chain a callback starts, given the cache it sees and the `data-bv` value, if it starts one. */
  function LaunchedFor(entries: map<string, string>, attr: Option<string>): Option<string>
  {
    match StartOf(entries, attr)
    case Launched(bv) => Some(bv)
    case _ => None
  }

  /**
   * Every `forEach` callback, in document order. They all see the cache as
   * it was before the pass: no chain settles while they run. `launched[i]`
   * is the identifier whose chain the callback for `imgs[i]` started.
   */
  method StartAll(cache: CoverCache, imgs: seq<Thumb>) returns (launched: seq<Option<string>>)
    requires forall i, j :: 0 <= i < |imgs| && 0 <= j < |imgs| && i != j ==> imgs[i] != imgs[j]
    modifies imgs
    ensures |launched| == |imgs|
    ensures forall i :: 0 <= i < |imgs| ==> launched[i] == LaunchedFor(cache.entries, old(imgs[i].dataBv))
    ensures forall i :: 0 <= i < |imgs| ==> imgs[i].State() == StartLook(cache.entries, old(imgs[i].State()))
  {
    launched := [];
    var i := 0;
    while i < |imgs|
      invariant 0 <= i <= |imgs| && |launched| == i
      invariant forall j :: 0 <= j < i ==> launched[j] == LaunchedFor(cache.entries, old(imgs[j].dataBv))
      invariant forall j :: 0 <= j < i ==> imgs[j].State() == StartLook(cache.entries, old(imgs[j].State()))
      invariant forall j :: i <= j < |imgs| ==> imgs[j].State() == old(imgs[j].State())
    {
      var chain := StartCover(cache, imgs[i]);
      launched := launched + [chain];
      i := i + 1;
    }
  }

  /** The cache after one more chain, for identifier `chain` if one was started, has settled. */
  function Learn(entries: map<string, string>, chain: Option<string>, probe: string -> ProbeResult): map<string, string>
  {
    if chain.Some? && Resolve(chain.value, probe).committed.Some?
    then entries[chain.value := Resolve(chain.value, probe).committed.value]
    else entries
  }

  /** Learning on top of a union is learning into its right-hand part. */
  lemma LearnAfterUnion(e: map<string, string>, m: map<string, string>, chain: Option<string>, probe: string -> ProbeResult)
    ensures Learn(e + m, chain, probe) == e + Learn(m, chain, probe)
  {
  }

  /** What the settled chains add to the cache: each identifier that resolved, to its URL. */
  function Learned(chains: seq<Option<string>>, probe: string -> ProbeResult): map<string, string>
  {
    if chains == [] then map[]
    else Learn(Learned(chains[..|chains| - 1], probe), chains[|chains| - 1], probe)
  }

  /**
   * The cache only learns identifiers whose chain was started, each mapped
   * to the URL its chain committed; and every started chain that commits
   * leaves its identifier in the cache.
   */
  lemma {:induction false} LearnedEntries(chains: seq<Option<string>>, probe: string -> ProbeResult)
    ensures forall bv :: bv in Learned(chains, probe) ==>
      Some(bv) in chains && Resolve(bv, probe).committed == Some(Learned(chains, probe)[bv])
    ensures forall i :: 0 <= i < |chains| && chains[i].Some? && Resolve(chains[i].value, probe).committed.Some? ==>
      chains[i].value in Learned(chains, probe)
  {
    if chains != [] {
      var init, last := chains[..|chains| - 1], chains[|chains| - 1];
      LearnedEntries(init, probe);
      var before, after := Learned(init, probe), Learned(chains, probe);
      assert after == Learn(before, last, probe);
      forall bv | bv in after
        ensures Some(bv) in chains && Resolve(bv, probe).committed == Some(after[bv])
      {
        if last == Some(bv) && Resolve(bv, probe).committed.Some? {
          assert chains[|chains| - 1] == Some(bv);
        } else {
          assert bv in before && after[bv] == before[bv];
          var i :| 0 <= i < |init| && init[i] == Some(bv);
          assert chains[i] == Some(bv);
        }
      }
      forall i | 0 <= i < |chains| && chains[i].Some? && Resolve(chains[i].value, probe).committed.Some?
        ensures chains[i].value in after
      {
        if i < |init| {
          assert init[i] == chains[i];
        }
      }
    }
  }

  /** The chain started for one placeholder, if any, settles: `RunChain` or nothing. */
  method Settle(cache: CoverCache, img: Thumb, chain: Option<string>, probe: string -> ProbeResult)
    requires cache.Valid()
    modifies cache, img
    ensures cache.Valid()
    ensures img.State() == AfterChain(old(img.State()), chain, probe)
    ensures cache.entries == Learn(old(cache.entries), chain, probe)
  {
    if chain.Some? {
      var t := RunChain(cache, img, chain.value, probe);
    }
  }

  /**
   * The chains settle, one after another, in document order. A chain never
   * reads the cache and writes only its own identifier's entry, so the
   * settle order is argued not to change the result; that argument is not
   * proved here.
   */
  method SettleAll(cache: CoverCache, imgs: seq<Thumb>, launched: seq<Option<string>>, probe: string -> ProbeResult)
    requires cache.Valid()
    requires forall i, j :: 0 <= i < |imgs| && 0 <= j < |imgs| && i != j ==> imgs[i] != imgs[j]
    requires |launched| == |imgs|
    modifies cache, imgs
    ensures cache.Valid()
    ensures forall i :: 0 <= i < |imgs| ==> imgs[i].State() == AfterChain(old(imgs[i].State()), launched[i], probe)
    ensures cache.entries == old(cache.entries) + Learned(launched, probe)
  {
    var i := 0;
    while i < |imgs|
      invariant 0 <= i <= |imgs|
      invariant cache.Valid()
      invariant forall j :: 0 <= j < i ==> imgs[j].State() == AfterChain(old(imgs[j].State()), launched[j], probe)
      invariant forall j :: i <= j < |imgs| ==> imgs[j].src == old(imgs[j].src) && imgs[j].dataBv == old(imgs[j].dataBv)
      invariant cache.entries == old(cache.entries) + Learned(launched[..i], probe)
    {
      label settling:
      ghost var learned := Learned(launched[..i], probe);
      Settle(cache, imgs[i], launched[i], probe);
      assert launched[..i + 1][..i] == launched[..i];
      LearnAfterUnion(old(cache.entries), learned, launched[i], probe);
      forall j | 0 <= j < |imgs| && j != i
        ensures imgs[j].src == old@settling(imgs[j].src) && imgs[j].dataBv == old@settling(imgs[j].dataBv)
      {
        assert imgs[j] != imgs[i];
      }
      i := i + 1;
    }
    assert launched[..|imgs|] == launched;
  }

  /**
   * The loader's pass over all placeholders: every callback runs first,
   * against the same cache, then every chain it started settles. Returns
   * the identifier of the chain started for each placeholder, if any.
   * Every placeholder ends as `FinalLook` says; the cache gains exactly
   * what the chains learned.
   */
  method LoadAll(cache: CoverCache, imgs: seq<Thumb>, probe: string -> ProbeResult)
    returns (launched: seq<Option<string>>)
    requires cache.Valid()
    requires forall i, j :: 0 <= i < |imgs| && 0 <= j < |imgs| && i != j ==> imgs[i] != imgs[j]
    modifies cache, imgs
    ensures cache.Valid()
    ensures |launched| == |imgs|
    ensures forall i :: 0 <= i < |imgs| ==> launched[i] == LaunchedFor(old(cache.entries), old(imgs[i].dataBv))
    ensures forall i :: 0 <= i < |imgs| ==>
      imgs[i].State() == FinalLook(old(cache.entries), old(imgs[i].State()), probe)
    ensures cache.entries == old(cache.entries) + Learned(launched, probe)
  {
    launched := StartAll(cache, imgs);
    SettleAll(cache, imgs, launched, probe);
  }

  /**
   * The `DOMContentLoaded` handler: reuse or create the cache, then run the
   * loader's pass over the placeholders, against the cache as it was.
   */
  method OnReady(existing: CoverCache?, imgs: seq<Thumb>, probe: string -> ProbeResult)
    returns (cache: CoverCache, launched: seq<Option<string>>)
    requires existing != null ==> existing.Valid()
    requires forall i, j :: 0 <= i < |imgs| && 0 <= j < |imgs| && i != j ==> imgs[i] != imgs[j]
    modifies existing, imgs
    ensures cache.Valid()
    ensures existing != null ==> cache == existing
    ensures var before := if existing == null then map[] else old(existing.entries);
      |launched| == |imgs|
      && cache.entries == before + Learned(launched, probe)
      && forall i :: 0 <= i < |imgs| ==> imgs[i].State() == FinalLook(before, old(imgs[i].State()), probe)
  {
    cache := EnsureCache(existing);
    launched := LoadAll(cache, imgs, probe);
  }

  /**
   * When every cached value is truthy (as `CoverCache.Valid` guarantees, by
   * `ValidTruthy`), the callbacks start no chain for a cached identifier.
   */
  lemma LaunchedNotCached(entries: map<string, string>, attrs: seq<Option<string>>, launched: seq<Option<string>>)
    requires forall bv :: bv in entries ==> entries[bv] != ""
    requires |launched| == |attrs|
    requires forall i :: 0 <= i < |attrs| ==> launched[i] == LaunchedFor(entries, attrs[i])
    ensures forall i :: 0 <= i < |launched| && launched[i].Some? ==> launched[i].value !in entries
  {
    forall i | 0 <= i < |launched| && launched[i].Some?
      ensures launched[i].value !in entries
    {
      LaunchedOnMiss(entries, attrs[i], launched[i].value);
    }
  }

  /**
   * The loader's pass only adds to the cache: it learns no identifier that
   * was cached before, so the old entries keep their values.
   */
  lemma LoadAllKeepsEntries(entries: map<string, string>, attrs: seq<Option<string>>,
                            launched: seq<Option<string>>, probe: string -> ProbeResult)
    requires forall bv :: bv in entries ==> entries[bv] != ""
    requires |launched| == |attrs|
    requires forall i :: 0 <= i < |attrs| ==> launched[i] == LaunchedFor(entries, attrs[i])
    ensures forall bv :: bv in entries ==> bv !in Learned(launched, probe)
    ensures forall bv :: bv in entries ==> (entries + Learned(launched, probe))[bv] == entries[bv]
  {
    LaunchedNotCached(entries, attrs, launched);
    forall bv | bv in entries ensures bv !in Learned(launched, probe) {
      if bv in Learned(launched, probe) {
        LearnedEntries(launched, probe);
        assert false;
      }
    }
  }

  /** The cache invariant makes every cached value truthy. */
  lemma ValidTruthy(entries: map<string, string>)
    requires ValidEntries(entries)
    ensures forall bv :: bv in entries ==> entries[bv] != ""
  {
    forall bv | bv in entries ensures entries[bv] != "" {
      CandidateNonEmpty(bv, entries[bv]);
    }
  }

  /**
   * Identifier `BV1xx411c7mD` on a fresh page whose first candidate loads:
   * the callback misses the empty cache and starts a chain, and the chain
   * commits the host i0 `.jpg` URL to the placeholder and to the cache.
   */
  method FirstCandidateScenario(probe: string -> ProbeResult) returns (cache: CoverCache, img: Thumb)
    requires probe("https://i0.hdslb.com/bfs/archive/BV1xx411c7mD.jpg") == Loaded
    ensures cache.entries == map["BV1xx411c7mD" := "https://i0.hdslb.com/bfs/archive/BV1xx411c7mD.jpg"]
    ensures img.State() == Look("https://i0.hdslb.com/bfs/archive/BV1xx411c7mD.jpg", None)
  {
    var bv := "BV1xx411c7mD";
    cache := new CoverCache();
    img := new Thumb("", Some(bv));
    var chain := StartCover(cache, img);
    FirstCandidateExample();
    CandidateAt(bv, 0);
    ResolveFirstSuccess(bv, probe, 0);
    var t := RunChain(cache, img, bv, probe);
  }
}
