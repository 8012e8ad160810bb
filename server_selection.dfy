/**
  The server-selection part of `getBestServer` (src/Speedtest.c) and the comparator
  `sortServers` it hands to `qsort`.

  The directory fetch (`getServers`), the configuration fetch (`getConfig`), the
  distance computation (`haversineDistance`) and the random draw (`rand()`) are
  parameters: `fetch` maps a directory URL to the servers it lists, `config` is the
  client location or None when the configuration could not be fetched, `haversine`
  gives a distance in whole kilometres, and `draw` is the value `rand()` returned.
 */
module ServerSelection {
  import opened Wrappers

  datatype GeoPoint = GeoPoint(lat: real, lon: real)

  /** One directory entry; `distance` is filled in by the ranking step. */
  datatype Server = Server(
    url: string,
    name: string,
    sponsor: string,
    country: string,
    location: GeoPoint,
    distance: int)

  const PrimaryDirectory: string := "http://www.speedtest.net/speedtest-servers-static.php"
  const FallbackDirectory: string := "http://c.speedtest.net/speedtest-servers-static.php"

  // ---------------------------------------------------------------------------
  // The comparator

  const TwoTo31: int := 0x8000_0000
  const TwoTo32: int := 0x1_0000_0000

  /** The `int` a wider integer becomes when returned as `int` (two's complement truncation). */
  function ToInt32(x: int): (r: int)
    ensures -TwoTo31 <= r < TwoTo31
    ensures (r - x) % TwoTo32 == 0
  {
    var low := x % TwoTo32;
    if low < TwoTo31 then low else low - TwoTo32
  }

  predicate FitsInt32Distance(s: Server) {
    0 <= s.distance < TwoTo31
  }

  /**
    `sortServers`: the difference of the two distances, returned as `int`. For
    distances in [0, 2^31) it is negative, zero or positive exactly as the first
    distance is smaller than, equal to or larger than the second.
   */
  function SortServers(a: Server, b: Server): (r: int)
    ensures FitsInt32Distance(a) && FitsInt32Distance(b) ==>
              (r < 0 <==> a.distance < b.distance) && (r == 0 <==> a.distance == b.distance)
  {
    ToInt32(a.distance - b.distance)
  }

  /** Outside that range the truncated difference can order two servers the wrong way. */
  lemma ComparatorWrapsOutsideRange()
    ensures var far := Server("", "", "", "", GeoPoint(0.0, 0.0), TwoTo31);
            var near := far.(distance := 0);
            SortServers(far, near) < 0 && far.distance > near.distance
  {
  }

  // ---------------------------------------------------------------------------
  // Ranking: distance fill and sort

  /** An entry with its distance from the client filled in. */
  function WithDistance(s: Server, here: GeoPoint, haversine: (GeoPoint, GeoPoint) -> int): Server
  {
    s.(distance := haversine(here, s.location))
  }

  predicate SortedByDistance(s: seq<Server>) {
    forall p, q :: 0 <= p < q < |s| ==> s[p].distance <= s[q].distance
  }

  /** `sorted` is what `qsort` may leave: the candidates in ascending order of distance. */
  predicate IsRanking(sorted: seq<Server>, candidates: seq<Server>) {
    SortedByDistance(sorted) && multiset(sorted) == multiset(candidates)
  }

  /** The loop that writes each entry's distance in place. */
  method FillDistances(a: array<Server>, here: GeoPoint, haversine: (GeoPoint, GeoPoint) -> int)
    modifies a
    ensures forall k :: 0 <= k < a.Length ==> a[k] == WithDistance(old(a[k]), here, haversine)
  {
    for i := 0 to a.Length
      invariant forall k :: 0 <= k < i ==> a[k] == WithDistance(old(a[k]), here, haversine)
      invariant forall k :: i <= k < a.Length ==> a[k] == old(a[k])
    {
      a[i] := a[i].(distance := haversine(here, a[i].location));
    }
  }

  predicate AllFit(s: seq<Server>) {
    forall k :: 0 <= k < |s| ==> FitsInt32Distance(s[k])
  }

  /** The first n entries are in ascending order of distance. */
  predicate SortedPrefix(s: seq<Server>, n: nat)
    requires n <= |s|
  {
    forall p, q :: 0 <= p < q < n ==> s[p].distance <= s[q].distance
  }

  /**
    Mid-insertion: s[..i+1] is sorted except for the entry at j, which is closer
    than everything after it up to i.
   */
  predicate Inserting(s: seq<Server>, i: nat, j: nat)
    requires j <= i < |s|
  {
    && (forall p, q :: 0 <= p < q <= i && p != j && q != j ==> s[p].distance <= s[q].distance)
    && (forall q :: j < q <= i ==> s[j].distance < s[q].distance)
  }

  method Swap(a: array<Server>, j: nat)
    requires 0 < j < a.Length
    modifies a
    ensures a[..] == old(a[..])[j - 1 := old(a[j])][j := old(a[j - 1])]
    ensures multiset(a[..]) == multiset(old(a[..]))
  {
    a[j - 1], a[j] := a[j], a[j - 1];
  }

  /** One pass of the insertion: moves a[i] down to its place among a[..i]. */
  method InsertNext(a: array<Server>, i: nat)
    requires i < a.Length && AllFit(a[..]) && SortedPrefix(a[..], i)
    modifies a
    ensures AllFit(a[..]) && SortedPrefix(a[..], i + 1)
    ensures multiset(a[..]) == multiset(old(a[..]))
  {
    var j: nat := i;
    while j > 0 && SortServers(a[j - 1], a[j]) > 0
      invariant j <= i
      invariant Inserting(a[..], i, j)
      invariant AllFit(a[..])
      invariant multiset(a[..]) == multiset(old(a[..]))
    {
      Swap(a, j);
      j := j - 1;
    }
    assert j > 0 ==> a[j - 1].distance <= a[j].distance;
  }

  /**
    `qsort(serverList, serverCount, ..., sortServers)`, as an insertion sort that
    decides with `sortServers`. `qsort` promises no order among equal distances,
    so neither does this.
   */
  method SortByDistance(a: array<Server>)
    requires AllFit(a[..])
    modifies a
    ensures SortedByDistance(a[..])
    ensures multiset(a[..]) == multiset(old(a[..]))
  {
    for i := 0 to a.Length
      invariant SortedPrefix(a[..], i)
      invariant AllFit(a[..])
      invariant multiset(a[..]) == multiset(old(a[..]))
    {
      InsertNext(a, i);
    }
  }

  // ---------------------------------------------------------------------------
  // Choosing the index

  function Min(x: nat, y: nat): nat {
    if x <= y then x else y
  }

  /** The index as written: 0, or `rand() % randomizeBestServers` when randomizing. */
  function SourceIndex(draw: nat, randomizeBestServers: nat): (k: nat)
    ensures randomizeBestServers == 0 ==> k == 0
    ensures randomizeBestServers != 0 ==> k < randomizeBestServers
  {
    if randomizeBestServers == 0 then 0 else draw % randomizeBestServers
  }

  /**
    Whenever N exceeds the number of servers, a draw equal to that number selects
    the index one past the last entry: the code then reads past the end of
    `serverList` (with three servers and `--randomize 5`, a draw of 3 or 4).
   */
  lemma SourceIndexLeavesList(serverCount: nat, randomizeBestServers: nat)
    requires serverCount < randomizeBestServers
    ensures SourceIndex(serverCount, randomizeBestServers) == serverCount
  {
  }

  /**
    The index drawn among the min(N, count) closest servers, as the randomized
    selection is meant to behave. It never leaves the list, and it is the index
    the code computes whenever N does not exceed the number of servers.
   */
  function SelectIndex(draw: nat, randomizeBestServers: nat, serverCount: nat): (k: nat)
    requires serverCount > 0
    ensures k < serverCount
    ensures randomizeBestServers == 0 ==> k == 0
    ensures randomizeBestServers != 0 ==> k < randomizeBestServers
    ensures randomizeBestServers <= serverCount ==> k == SourceIndex(draw, randomizeBestServers)
  {
    if randomizeBestServers == 0 then 0 else draw % Min(randomizeBestServers, serverCount)
  }

  // ---------------------------------------------------------------------------
  // What the chosen server is

  /** How many entries are strictly closer than distance d. */
  function Closer(s: seq<Server>, d: int): (n: nat)
    ensures n <= |s|
  {
    if s == [] then 0 else (if s[0].distance < d then 1 else 0) + Closer(s[1..], d)
  }

  lemma {:induction false} CloserConcat(u: seq<Server>, v: seq<Server>, d: int)
    ensures Closer(u + v, d) == Closer(u, d) + Closer(v, d)
  {
    if u == [] {
      assert u + v == v;
    } else {
      assert (u + v)[1..] == u[1..] + v;
      CloserConcat(u[1..], v, d);
    }
  }

  /** The count depends only on which entries there are, not on their order. */
  lemma {:induction false} CloserOfPermutation(a: seq<Server>, b: seq<Server>, d: int)
    requires multiset(a) == multiset(b)
    ensures Closer(a, d) == Closer(b, d)
  {
    if a != [] {
      var x := a[0];
      assert x in multiset(b);
      var i :| 0 <= i < |b| && b[i] == x;
      var b1, b2 := b[..i], b[i + 1..];
      assert b == b1 + [x] + b2;
      assert a == [x] + a[1..];
      var rest := b1 + b2;
      assert multiset(a[1..]) == multiset(rest) by {
        assert multiset(b) == multiset(b1) + multiset{x} + multiset(b2);
        assert multiset(a) == multiset{x} + multiset(a[1..]);
        assert multiset(rest) == multiset(b1) + multiset(b2);
        assert multiset(a[1..]) == multiset(a) - multiset{x};
        assert multiset(rest) == multiset(b) - multiset{x};
      }
      CloserOfPermutation(a[1..], rest, d);
      CloserConcat(b1 + [x], b2, d);
      CloserConcat(b1, [x], d);
      CloserConcat(b1, b2, d);
    }
  }

  lemma {:induction false} NoneCloser(t: seq<Server>, d: int)
    requires forall k :: 0 <= k < |t| ==> d <= t[k].distance
    ensures Closer(t, d) == 0
  {
    if t != [] {
      NoneCloser(t[1..], d);
    }
  }

  /** In a sorted list fewer than k + 1 entries are strictly closer than entry k. */
  lemma SortedCloserBound(s: seq<Server>, k: nat)
    requires SortedByDistance(s) && k < |s|
    ensures Closer(s, s[k].distance) <= k
  {
    assert s == s[..k] + s[k..];
    CloserConcat(s[..k], s[k..], s[k].distance);
    NoneCloser(s[k..], s[k].distance);
  }

  /**
    Without randomizing, the entry at index 0 of a ranking is a candidate and no
    candidate is closer.
   */
  lemma FirstIsClosest(sorted: seq<Server>, candidates: seq<Server>)
    requires IsRanking(sorted, candidates) && |sorted| > 0
    ensures sorted[0] in candidates
    ensures forall c :: c in candidates ==> sorted[0].distance <= c.distance
  {
    assert sorted[0] in multiset(sorted);
    forall c | c in candidates ensures sorted[0].distance <= c.distance {
      assert c in multiset(sorted);
    }
  }

  /**
    The entry at the corrected index is a candidate, and fewer than
    max(N, 1) candidates are strictly closer than it: it is among the N closest.
   */
  lemma SelectedIsAmongClosest(sorted: seq<Server>, candidates: seq<Server>, draw: nat, randomizeBestServers: nat)
    requires IsRanking(sorted, candidates) && |sorted| > 0
    ensures var k := SelectIndex(draw, randomizeBestServers, |sorted|);
            && sorted[k] in candidates
            && Closer(candidates, sorted[k].distance) < if randomizeBestServers == 0 then 1 else randomizeBestServers
  {
    var k := SelectIndex(draw, randomizeBestServers, |sorted|);
    assert sorted[k] in multiset(sorted);
    SortedCloserBound(sorted, k);
    CloserOfPermutation(sorted, candidates, sorted[k].distance);
  }

  /** A server at the given distance, for the scenario below. */
  function At(d: int): Server {
    Server("", "", "", "", GeoPoint(0.0, 0.0), d)
  }

  /** Candidates at 50, 10 and 200 km, no randomizing: the 10 km server is chosen. */
  lemma ClosestOfThree(sorted: seq<Server>)
    requires IsRanking(sorted, [At(50), At(10), At(200)])
    ensures |sorted| == 3 && sorted[SelectIndex(0, 0, 3)] == At(10)
  {
    assert |multiset(sorted)| == 3;
    FirstIsClosest(sorted, [At(50), At(10), At(200)]);
  }

  // ---------------------------------------------------------------------------
  // getBestServer

  datatype Failure = ConfigUnavailable | NoServersAvailable

  /** The sorted server list and the index of the chosen entry. */
  datatype Selection = Selection(serverList: seq<Server>, selected: nat)

  /** The servers the run works with: the primary directory's, or the fallback's when it lists none. */
  function Fetched(fetch: string -> seq<Server>): seq<Server>
  {
    if |fetch(PrimaryDirectory)| == 0 then fetch(FallbackDirectory) else fetch(PrimaryDirectory)
  }

  /** The candidates with their distances from the client. */
  function Ranked(s: seq<Server>, here: GeoPoint, haversine: (GeoPoint, GeoPoint) -> int): seq<Server>
  {
    seq(|s|, k requires 0 <= k < |s| => WithDistance(s[k], here, haversine))
  }

  method GetBestServer(
    config: Option<GeoPoint>,
    fetch: string -> seq<Server>,
    haversine: (GeoPoint, GeoPoint) -> int,
    randomizeBestServers: nat,
    draw: nat)
    returns (result: Result<Selection, Failure>, queried: seq<string>)
    requires forall p, q :: 0 <= haversine(p, q) < TwoTo31
    ensures config.None? ==> result == Failure(ConfigUnavailable) && queried == []
    ensures config.Some? ==>
              queried == [PrimaryDirectory] + (if |fetch(PrimaryDirectory)| == 0 then [FallbackDirectory] else [])
    ensures config.Some? && |Fetched(fetch)| == 0 ==> result == Failure(NoServersAvailable)
    ensures config.Some? && |Fetched(fetch)| > 0 ==>
              && result.Success?
              && IsRanking(result.value.serverList, Ranked(Fetched(fetch), config.value, haversine))
              && result.value.selected == SelectIndex(draw, randomizeBestServers, |Fetched(fetch)|)
              && result.value.selected < |result.value.serverList|
  {
    if config.None? {
      return Failure(ConfigUnavailable), [];
    }
    var servers := fetch(PrimaryDirectory);
    queried := [PrimaryDirectory];
    if |servers| == 0 {
      // The primary directory listed nothing: try the fallback once.
      servers := fetch(FallbackDirectory);
      queried := queried + [FallbackDirectory];
    }
    if |servers| == 0 {
      return Failure(NoServersAvailable), queried;
    }
    var serverList := new Server[|servers|](k requires 0 <= k < |servers| => servers[k]);
    assert serverList[..] == servers;
    FillDistances(serverList, config.value, haversine);
    assert serverList[..] == Ranked(servers, config.value, haversine);
    assert AllFit(serverList[..]);
    SortByDistance(serverList);
    var selected := SelectIndex(draw, randomizeBestServers, serverList.Length);
    result := Success(Selection(serverList[..], selected));
  }
}
