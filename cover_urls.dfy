/**
 * Candidate cover URLs: the five CDN hosts, the three URL templates of the
 * `switch` in `tryLoadCover`, and the fixed order in which the resolver
 * visits them. `ParseCoverUrl` is the inverse of the templating and shows
 * that it is exact and injective.
 */
module CoverUrls {
  import opened Wrappers

  /** The CDN hosts, in priority order (`cdnDomains`). */
  const Domains: seq<string> :=
    ["i0.hdslb.com", "i1.hdslb.com", "i2.hdslb.com", "i3.hdslb.com", "i4.hdslb.com"]

  const Scheme: string := "https://"
  const ArchivePath: string := "/bfs/archive/"

  /**
   * The part of the URL after the video identifier, per format index.
   * There are three templates; format index 3 only means "next host".
   */
  const Formats: seq<string> := [".jpg", "@640w_360h_1c_!web-archive-video-cover.webp", "@320w_180h_1c.jpg"]

  /** The URL probed for host `d` and format `f`; `bv` is inserted verbatim. */
  function CoverUrl(bv: string, d: nat, f: nat): string
    requires d < |Domains| && f < 3
  {
    Scheme + Domains[d] + ArchivePath + bv + Formats[f]
  }

  /**
   * All candidates from host `d` on: host by host, and within one host
   * format 0, 1, 2 (`CandidateAt` gives the position of each).
   */
  function CandidatesFrom(bv: string, d: nat): (cs: seq<string>)
    requires d <= |Domains|
    ensures |cs| == 3 * (|Domains| - d)
    decreases |Domains| - d
  {
    if d == |Domains| then []
    else [CoverUrl(bv, d, 0), CoverUrl(bv, d, 1), CoverUrl(bv, d, 2)] + CandidatesFrom(bv, d + 1)
  }

  /** The whole priority order of the resolver for identifier `bv`: 15 URLs. */
  function Candidates(bv: string): (cs: seq<string>)
    ensures |cs| == 3 * |Domains| == 15
  {
    CandidatesFrom(bv, 0)
  }

  /** From host `d` on, host `e` with format `f` sits at position `3 * (e - d) + f`. */
  lemma {:induction false} CandidatesFromAt(bv: string, d: nat, e: nat, f: nat)
    requires d <= e < |Domains| && f < 3
    ensures 3 * (e - d) + f < |CandidatesFrom(bv, d)|
    ensures CandidatesFrom(bv, d)[3 * (e - d) + f] == CoverUrl(bv, e, f)
    decreases e - d
  {
    var row := [CoverUrl(bv, d, 0), CoverUrl(bv, d, 1), CoverUrl(bv, d, 2)];
    if d < e {
      CandidatesFromAt(bv, d + 1, e, f);
      IndexPastRow(row, CandidatesFrom(bv, d + 1), 3 * (e - (d + 1)) + f);
    } else {
      IndexInRow(row, CandidatesFrom(bv, d + 1), f);
    }
  }

  lemma IndexPastRow(row: seq<string>, rest: seq<string>, j: nat)
    requires |row| == 3 && j < |rest|
    ensures (row + rest)[j + 3] == rest[j]
  {
  }

  lemma IndexInRow(row: seq<string>, rest: seq<string>, f: nat)
    requires f < |row|
    ensures (row + rest)[f] == row[f]
  {
  }

  /**
   * The priority order: candidate `k` is host `k / 3` with format `k % 3`,
   * so hosts i0 to i4 in turn and, within a host, formats 0, 1, 2.
   */
  lemma CandidateAt(bv: string, k: nat)
    requires k < |Candidates(bv)|
    ensures k / 3 < |Domains| && Candidates(bv)[k] == CoverUrl(bv, k / 3, k % 3)
  {
    var e, f := k / 3, k % 3;
    assert k == 3 * e + f;
    CandidatesFromAt(bv, 0, e, f);
  }

  /** First position of `x` in `xs`, if any. */
  function IndexOf(xs: seq<string>, x: string): (r: Option<nat>)
    ensures r.Some? ==> r.value < |xs| && xs[r.value] == x && x !in xs[..r.value]
    ensures r.None? ==> x !in xs
  {
    if xs == [] then None
    else if xs[0] == x then Some(0)
    else
      match IndexOf(xs[1..], x)
      case None => None
      case Some(i) =>
        assert xs[..i + 1] == [xs[0]] + xs[1..][..i];
        Some(i + 1)
  }

  /** Every host name has the same length, 12 characters. */
  const HostLength: nat := 12

  /**
   * Reads a URL back as (host index, format index) for identifier `bv`:
   * the scheme, a known host, the archive path, `bv` itself and a known
   * suffix, in that order and nothing else.
   */
  function ParseCoverUrl(bv: string, url: string): Option<(nat, nat)>
  {
    var hostEnd := |Scheme| + HostLength;
    var idStart := hostEnd + |ArchivePath|;
    if |url| < idStart + |bv| then None
    else if url[..|Scheme|] != Scheme || url[hostEnd..idStart] != ArchivePath
         || url[idStart..idStart + |bv|] != bv then None
    else
      match (IndexOf(Domains, url[|Scheme|..hostEnd]), IndexOf(Formats, url[idStart + |bv|..]))
      case (Some(d), Some(f)) => Some((d, f))
      case _ => None
  }

  lemma DomainsDistinct()
    ensures forall i, j :: 0 <= i < j < |Domains| ==> Domains[i] != Domains[j]
  {
    forall i, j | 0 <= i < j < |Domains| ensures Domains[i] != Domains[j] {
      assert Domains[i][1] != Domains[j][1];
    }
  }

  lemma FormatsDistinct()
    ensures forall i, j :: 0 <= i < j < |Formats| ==> Formats[i] != Formats[j]
  {
    forall i, j | 0 <= i < j < |Formats| ensures Formats[i] != Formats[j] {
      assert |Formats[i]| != |Formats[j]|;
    }
  }

  /** Cutting a string at four ascending points and joining the pieces gives it back. */
  lemma Reassemble(s: string, i: nat, j: nat, k: nat, l: nat)
    requires i <= j <= k <= l <= |s|
    ensures s == s[..i] + s[i..j] + s[j..k] + s[k..l] + s[l..]
  {
  }

  /** The five pieces of a joined string are found again at their own offsets. */
  lemma Pieces(a: string, b: string, c: string, d: string, e: string)
    ensures var s := a + b + c + d + e;
      var i, j, k, l := |a|, |a| + |b|, |a| + |b| + |c|, |a| + |b| + |c| + |d|;
      s[..i] == a && s[i..j] == b && s[j..k] == c && s[k..l] == d && s[l..] == e
  {
  }

  /** Parsing a candidate URL gives back the host and format it was built from. */
  lemma ParseCoverUrlRoundTrip(bv: string, d: nat, f: nat)
    requires d < |Domains| && f < 3
    ensures ParseCoverUrl(bv, CoverUrl(bv, d, f)) == Some((d, f))
  {
    assert |Scheme| == 8 && |Domains[d]| == HostLength && |ArchivePath| == 13;
    Pieces(Scheme, Domains[d], ArchivePath, bv, Formats[f]);
    DomainsDistinct();
    FormatsDistinct();
    assert Domains[d] !in Domains[..d];
    assert Formats[f] !in Formats[..f];
  }

  /** Whatever parses as (d, f) is exactly the candidate URL for (d, f). */
  lemma ParseCoverUrlSound(bv: string, url: string, d: nat, f: nat)
    requires ParseCoverUrl(bv, url) == Some((d, f))
    ensures d < |Domains| && f < 3 && url == CoverUrl(bv, d, f)
  {
    var hostEnd := |Scheme| + HostLength;
    var idStart := hostEnd + |ArchivePath|;
    Reassemble(url, |Scheme|, hostEnd, idStart, idStart + |bv|);
  }

  /** The 15 candidates are pairwise different URLs. */
  lemma CandidatesDistinct(bv: string, i: nat, j: nat)
    requires i < j < |Candidates(bv)|
    ensures Candidates(bv)[i] != Candidates(bv)[j]
  {
    CandidateAt(bv, i);
    CandidateAt(bv, j);
    ParseCoverUrlRoundTrip(bv, i / 3, i % 3);
    ParseCoverUrlRoundTrip(bv, j / 3, j % 3);
  }

  /** No candidate is the empty string, so a cached candidate is truthy. */
  lemma CandidateNonEmpty(bv: string, url: string)
    requires url in Candidates(bv)
    ensures url != ""
  {
    var k :| 0 <= k < |Candidates(bv)| && Candidates(bv)[k] == url;
    CandidateAt(bv, k);
    assert |url| >= |Scheme|;
  }

  /** The first candidate of identifier `BV1xx411c7mD`, written out. */
  lemma FirstCandidateExample()
    ensures CoverUrl("BV1xx411c7mD", 0, 0) == "https://i0.hdslb.com/bfs/archive/BV1xx411c7mD.jpg"
  {
    assert Domains[0] == "i0.hdslb.com" && Formats[0] == ".jpg";
    assert "https://" + "i0.hdslb.com" == "https://i0.hdslb.com";
    assert "https://i0.hdslb.com" + "/bfs/archive/" == "https://i0.hdslb.com/bfs/archive/";
    assert "https://i0.hdslb.com/bfs/archive/" + "BV1xx411c7mD" == "https://i0.hdslb.com/bfs/archive/BV1xx411c7mD";
  }
}
