/**
 * The probing chain of `tryLoadCover`: candidates are tried one at a time
 * in priority order and the first one whose test image loads wins. The
 * browser's image load and its 3000 ms timer are replaced by an oracle
 * that says how the probe of a URL settles.
 */
module Probing {
  import opened Wrappers
  import opened CoverUrls

  /** How one probe settles: `onload`, `onerror`, or the timer firing first. */
  datatype ProbeResult = Loaded | Errored | TimedOut

  /** What a chain did: the URLs it probed, in order, and the URL it committed. */
  datatype Trace = Trace(probed: seq<string>, committed: Option<string>)

  predicate AllFail(urls: seq<string>, probe: string -> ProbeResult)
  {
    forall i :: 0 <= i < |urls| ==> probe(urls[i]) != Loaded
  }

  /**
   * `t` is what a first-success search over `cs` must do: on success it
   * probed exactly the candidates up to the first one that loads and
   * committed that one; otherwise it probed all of them, all failed, and
   * nothing was committed.
   */
  predicate FirstSuccess(cs: seq<string>, probe: string -> ProbeResult, t: Trace)
  {
    match t.committed
    case None => t.probed == cs && AllFail(cs, probe)
    case Some(u) =>
      0 < |t.probed| <= |cs| && t.probed == cs[..|t.probed|]
      && u == cs[|t.probed| - 1] && probe(u) == Loaded
      && AllFail(cs[..|t.probed| - 1], probe)
  }

  /** Candidates still to visit at cursor (host `d`, format `f`). */
  function Remaining(bv: string, d: nat, f: nat): seq<string>
    requires f <= 3
  {
    if d >= |Domains| then []
    else [CoverUrl(bv, d, 0), CoverUrl(bv, d, 1), CoverUrl(bv, d, 2)][f..] + CandidatesFrom(bv, d + 1)
  }

  /**
   * `tryLoadCover(domainIndex, formatIndex)`. Past the last host the chain
   * gives up; format index 3 moves on to the next host without probing;
   * otherwise the candidate is probed and a load commits it, while an error
   * and a timeout both continue at the next format.
   */
  function TryLoadCover(bv: string, probe: string -> ProbeResult, d: nat, f: nat): Trace
    requires f <= 3
    decreases |Domains| - d, 3 - f
  {
    if d >= |Domains| then Trace([], None)
    else if f == 3 then TryLoadCover(bv, probe, d + 1, 0)
    else
      var url := CoverUrl(bv, d, f);
      if probe(url) == Loaded then Trace([url], Some(url))
      else
        var rest := TryLoadCover(bv, probe, d, f + 1);
        Trace([url] + rest.probed, rest.committed)
  }

  /**
   * From any cursor, the chain is a first-success search over the
   * candidates still to visit, in priority order.
   */
  lemma {:induction false} TryLoadCoverSearches(bv: string, probe: string -> ProbeResult, d: nat, f: nat)
    requires f <= 3
    ensures FirstSuccess(Remaining(bv, d, f), probe, TryLoadCover(bv, probe, d, f))
    decreases |Domains| - d, 3 - f
  {
    if d >= |Domains| {
    } else if f == 3 {
      RemainingNextHost(bv, d);
      TryLoadCoverSearches(bv, probe, d + 1, 0);
    } else {
      var url := CoverUrl(bv, d, f);
      RemainingStep(bv, d, f);
      if probe(url) == Loaded {
        FirstSuccessHit(url, Remaining(bv, d, f + 1), probe);
      } else {
        TryLoadCoverSearches(bv, probe, d, f + 1);
        FirstSuccessMiss(url, Remaining(bv, d, f + 1), probe, TryLoadCover(bv, probe, d, f + 1));
      }
    }
  }

  /** A candidate that loads, in front of any others, is the one committed. */
  lemma FirstSuccessHit(url: string, cs: seq<string>, probe: string -> ProbeResult)
    requires probe(url) == Loaded
    ensures FirstSuccess([url] + cs, probe, Trace([url], Some(url)))
  {
    assert ([url] + cs)[..1] == [url];
  }

  /** A candidate that fails, in front of others, is probed and then the search goes on. */
  lemma FirstSuccessMiss(url: string, cs: seq<string>, probe: string -> ProbeResult, t: Trace)
    requires probe(url) != Loaded && FirstSuccess(cs, probe, t)
    ensures FirstSuccess([url] + cs, probe, Trace([url] + t.probed, t.committed))
  {
    var all := [url] + cs;
    var n := |t.probed|;
    if t.committed.Some? {
      assert all[..n + 1] == [url] + cs[..n];
      assert all[..n] == [url] + cs[..n - 1];
    }
  }

  /** Format index 3 is not a template: the cursor (d, 3) has the same candidates left as (d + 1, 0). */
  lemma RemainingNextHost(bv: string, d: nat)
    requires d < |Domains|
    ensures Remaining(bv, d, 3) == Remaining(bv, d + 1, 0)
  {
    var host := [CoverUrl(bv, d, 0), CoverUrl(bv, d, 1), CoverUrl(bv, d, 2)];
    assert host[3..] == [];
    if d + 1 < |Domains| {
      var next := [CoverUrl(bv, d + 1, 0), CoverUrl(bv, d + 1, 1), CoverUrl(bv, d + 1, 2)];
      assert next[0..] == next;
    }
  }

  /** At a real format the remaining candidates start with that format's URL. */
  lemma RemainingStep(bv: string, d: nat, f: nat)
    requires d < |Domains| && f < 3
    ensures Remaining(bv, d, f) == [CoverUrl(bv, d, f)] + Remaining(bv, d, f + 1)
  {
    var host := [CoverUrl(bv, d, 0), CoverUrl(bv, d, 1), CoverUrl(bv, d, 2)];
    var later := CandidatesFrom(bv, d + 1);
    assert Remaining(bv, d, f) == host[f..] + later;
    assert Remaining(bv, d, f + 1) == host[f + 1..] + later;
    assert host[f] == CoverUrl(bv, d, f);
    DropFirst(host, later, f);
  }

  lemma DropFirst(xs: seq<string>, ys: seq<string>, i: nat)
    requires i < |xs|
    ensures xs[i..] + ys == [xs[i]] + (xs[i + 1..] + ys)
  {
    assert xs[i..] == [xs[i]] + xs[i + 1..];
  }

  /** The chain started by `tryLoadCover()` with its default arguments. */
  function Resolve(bv: string, probe: string -> ProbeResult): Trace
  {
    var domainIndex, formatIndex := 0, 0;
    TryLoadCover(bv, probe, domainIndex, formatIndex)
  }

  /** The first-success description leaves no freedom: at most one trace meets it. */
  lemma FirstSuccessUnique(cs: seq<string>, probe: string -> ProbeResult, t1: Trace, t2: Trace)
    requires FirstSuccess(cs, probe, t1) && FirstSuccess(cs, probe, t2)
    ensures t1 == t2
  {
  }

  /**
   * If candidate `k` (0-based) is the first to load, the chain probes
   * candidates 0..k in order, commits candidate k and probes nothing after it.
   */
  lemma ResolveFirstSuccess(bv: string, probe: string -> ProbeResult, k: nat)
    requires k < |Candidates(bv)|
    requires probe(Candidates(bv)[k]) == Loaded && AllFail(Candidates(bv)[..k], probe)
    ensures Resolve(bv, probe) == Trace(Candidates(bv)[..k + 1], Some(Candidates(bv)[k]))
  {
    var cs := Candidates(bv);
    var t := Trace(cs[..k + 1], Some(cs[k]));
    TryLoadCoverSearches(bv, probe, 0, 0);
    assert cs[..k + 1][..k] == cs[..k];
    assert FirstSuccess(Remaining(bv, 0, 0), probe, t);
    FirstSuccessUnique(cs, probe, t, Resolve(bv, probe));
  }

  /** If no candidate loads, the chain probes all 15 and commits nothing. */
  lemma ResolveExhausted(bv: string, probe: string -> ProbeResult)
    requires AllFail(Candidates(bv), probe)
    ensures Resolve(bv, probe) == Trace(Candidates(bv), None)
  {
    var t := Trace(Candidates(bv), None);
    TryLoadCoverSearches(bv, probe, 0, 0);
    assert FirstSuccess(Remaining(bv, 0, 0), probe, t);
    FirstSuccessUnique(Candidates(bv), probe, t, Resolve(bv, probe));
  }

  /**
   * An error and a timeout are handled alike: two oracles that agree on
   * which URLs load give the same chain, whatever they say about how the
   * others fail.
   */
  lemma TimeoutIsFailure(bv: string, p1: string -> ProbeResult, p2: string -> ProbeResult, d: nat, f: nat)
    requires f <= 3
    requires forall url :: (p1(url) == Loaded) == (p2(url) == Loaded)
    ensures TryLoadCover(bv, p1, d, f) == TryLoadCover(bv, p2, d, f)
  {
    var cs := Remaining(bv, d, f);
    var t1, t2 := TryLoadCover(bv, p1, d, f), TryLoadCover(bv, p2, d, f);
    TryLoadCoverSearches(bv, p1, d, f);
    TryLoadCoverSearches(bv, p2, d, f);
    assert FirstSuccess(cs, p2, t1);
    FirstSuccessUnique(cs, p2, t1, t2);
  }

  /** A chain probes at most 15 URLs, and only URLs of the three templates. */
  lemma ProbesAreCandidates(bv: string, probe: string -> ProbeResult, i: nat)
    requires i < |Resolve(bv, probe).probed|
    ensures i < 15
    ensures Resolve(bv, probe).probed[i] == CoverUrl(bv, i / 3, i % 3)
  {
    var t := Resolve(bv, probe);
    TryLoadCoverSearches(bv, probe, 0, 0);
    assert Remaining(bv, 0, 0) == Candidates(bv);
    assert t.probed[i] == Candidates(bv)[i];
    CandidateAt(bv, i);
  }

  /** Whatever a chain commits is one of the identifier's 15 candidates. */
  lemma ResolvedIsCandidate(bv: string, probe: string -> ProbeResult)
    ensures Resolve(bv, probe).committed.Some? ==> Resolve(bv, probe).committed.value in Candidates(bv)
  {
    TryLoadCoverSearches(bv, probe, 0, 0);
    assert Remaining(bv, 0, 0) == Candidates(bv);
  }

  /**
   * All three candidates on host i0 fail and the `.jpg` candidate on host i1
   * loads: exactly four probes, and the host i1 URL wins, so hosts i2 to i4
   * are never probed.
   */
  lemma ResolveSecondHost(bv: string, probe: string -> ProbeResult)
    requires probe(CoverUrl(bv, 0, 0)) != Loaded && probe(CoverUrl(bv, 0, 1)) != Loaded
    requires probe(CoverUrl(bv, 0, 2)) != Loaded && probe(CoverUrl(bv, 1, 0)) == Loaded
    ensures Resolve(bv, probe).probed == [CoverUrl(bv, 0, 0), CoverUrl(bv, 0, 1), CoverUrl(bv, 0, 2), CoverUrl(bv, 1, 0)]
    ensures Resolve(bv, probe).committed == Some(CoverUrl(bv, 1, 0))
  {
    var cs := Candidates(bv);
    CandidateAt(bv, 0);
    CandidateAt(bv, 1);
    CandidateAt(bv, 2);
    CandidateAt(bv, 3);
    assert AllFail(cs[..3], probe);
    ResolveFirstSuccess(bv, probe, 3);
  }
}
