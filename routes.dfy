/** `/optimize_routes` (`app.py`): the posted list of locations is sorted in place by distance from
    a fixed centre in Taita Taveta. The distance (geopy's geodesic distance, or the haversine
    formula when geopy is missing) is a parameter of the model. */
module Routes {
  import opened Wrappers
  import opened SurplusApi

  /** A latitude / longitude pair, in degrees. */
  datatype Coord = Coord(lat: real, lon: real)

  /** The reference point all distances are measured from. */
  const CENTER: Coord := Coord(-3.45, 38.35)

  /** One posted location: a JSON object whose `lat` and `lon` keys may be missing; its other
      keys are carried along unchanged. */
  datatype Location = Location(lat: Option<real>, lon: Option<real>, details: map<string, string>)

  predicate Located(l: Location) {
    l.lat.Some? && l.lon.Some?
  }

  /** The sort key `dist(center, (loc['lat'], loc['lon']))` of a location that has both keys. */
  function DistanceFromCenter(dist: (Coord, Coord) -> real, l: Location): real
    requires Located(l)
  {
    dist(CENTER, Coord(l.lat.value, l.lon.value))
  }

  /** The key as a total function, for the sort; every location is located when it is used. */
  function RouteKey(dist: (Coord, Coord) -> real): Location -> real {
    l => if Located(l) then DistanceFromCenter(dist, l) else 0.0
  }

  /** The `KeyError` that computing the key of `l` raises: `lat` is looked up before `lon`. */
  function MissingKey(l: Location): ApiError
    requires !Located(l)
  {
    if l.lat.None? then KeyError("lat") else KeyError("lon")
  }

  /** `perm` maps each position of the result to the position its element came from in the input,
      the result is ordered by `key`, and elements with equal keys keep their input order. */
  ghost predicate StablySortedFrom<T>(r: seq<T>, s: seq<T>, key: T -> real, perm: seq<nat>) {
    |r| == |s| == |perm| &&
    (forall i :: 0 <= i < |r| ==> perm[i] < |s| && r[i] == s[perm[i]]) &&
    (forall i, j :: 0 <= i < j < |r| ==> perm[i] != perm[j]) &&
    (forall i, j :: 0 <= i < j < |r| ==> key(r[i]) <= key(r[j])) &&
    (forall i, j :: 0 <= i < j < |r| && key(r[i]) == key(r[j]) ==> perm[i] < perm[j])
  }

  /** The order the insertion sort keeps on the sorted part: by key, then by input position. */
  predicate Precedes(k1: real, p1: nat, k2: real, p2: nat) {
    k1 < k2 || (k1 == k2 && p1 < p2)
  }

  /** `cur` is a rearrangement of `s`: `perm` is one-to-one and says where each element came from. */
  ghost predicate Tracks<T>(cur: seq<T>, s: seq<T>, perm: seq<nat>) {
    |cur| == |s| == |perm| &&
    (forall k :: 0 <= k < |cur| ==> perm[k] < |s| && cur[k] == s[perm[k]]) &&
    (forall k, l :: 0 <= k < l < |cur| ==> perm[k] != perm[l])
  }

  /** Before inserting the element at position `i`: the first `i` elements are ordered and came
      from the first `i` input positions; the rest have not moved. */
  ghost predicate Sorting<T>(cur: seq<T>, perm: seq<nat>, key: T -> real, i: nat) {
    i <= |cur| == |perm| &&
    (forall k :: i <= k < |cur| ==> perm[k] == k) &&
    (forall k :: 0 <= k < i ==> perm[k] < i) &&
    (forall k, l :: 0 <= k < l < i ==> Precedes(key(cur[k]), perm[k], key(cur[l]), perm[l]))
  }

  /** While inserting the element that came from position `i`, now at position `j`: the other
      elements up to `i` are ordered, and those after `j` have strictly larger keys. */
  ghost predicate Inserting<T>(cur: seq<T>, perm: seq<nat>, key: T -> real, i: nat, j: nat) {
    j <= i < |cur| == |perm| &&
    (forall k :: i < k < |cur| ==> perm[k] == k) &&
    perm[j] == i &&
    (forall k :: 0 <= k <= i && k != j ==> perm[k] < i) &&
    (forall k, l :: 0 <= k < l <= i && k != j && l != j ==>
      Precedes(key(cur[k]), perm[k], key(cur[l]), perm[l])) &&
    (forall l :: j < l <= i ==> key(cur[j]) < key(cur[l]))
  }

  /** The element at position `i` is where the insertion starts. */
  lemma StartInserting<T>(cur: seq<T>, perm: seq<nat>, key: T -> real, i: nat)
    requires Sorting(cur, perm, key, i) && i < |cur|
    ensures Inserting(cur, perm, key, i, i)
  {
  }

  /** Swapping the inserted element with a predecessor of larger key moves it one step down. */
  lemma SwapStep<T>(cur: seq<T>, s: seq<T>, perm: seq<nat>, key: T -> real, i: nat, j: nat)
    requires Tracks(cur, s, perm) && Inserting(cur, perm, key, i, j)
    requires 0 < j && key(cur[j - 1]) > key(cur[j])
    ensures Tracks(cur[j - 1 := cur[j]][j := cur[j - 1]], s, perm[j - 1 := perm[j]][j := perm[j - 1]])
    ensures Inserting(cur[j - 1 := cur[j]][j := cur[j - 1]], perm[j - 1 := perm[j]][j := perm[j - 1]], key, i, j - 1)
  {
  }

  /** When the inserted element has no predecessor of larger key, the first `i + 1` are ordered. */
  lemma FinishInserting<T>(cur: seq<T>, perm: seq<nat>, key: T -> real, i: nat, j: nat)
    requires Inserting(cur, perm, key, i, j)
    requires j == 0 || key(cur[j - 1]) <= key(cur[j])
    ensures Sorting(cur, perm, key, i + 1)
  {
  }

  /** Once every element is inserted, the result is the stable sort of the input. */
  lemma Sorted<T>(cur: seq<T>, s: seq<T>, perm: seq<nat>, key: T -> real)
    requires Tracks(cur, s, perm) && Sorting(cur, perm, key, |cur|)
    ensures StablySortedFrom(cur, s, key, perm)
  {
  }

  /** Exchanges two neighbours of an array. */
  method SwapWithPrevious<T>(a: array<T>, j: int)
    requires 0 < j < a.Length
    modifies a
    ensures a[..] == old(a[..])[j - 1 := old(a[j])][j := old(a[j - 1])]
    ensures multiset(a[..]) == multiset(old(a[..]))
  {
    a[j - 1], a[j] := a[j], a[j - 1];
  }

  /** One pass of the insertion sort: moves the element at position `i` down past the elements
      of larger key before it, so that the first `i + 1` elements are ordered. */
  method InsertNext<T>(a: array<T>, key: T -> real, i: nat, ghost s: seq<T>, ghost perm0: seq<nat>)
    returns (ghost perm: seq<nat>)
    requires i < a.Length
    requires Tracks(a[..], s, perm0) && Sorting(a[..], perm0, key, i)
    requires multiset(a[..]) == multiset(s)
    modifies a
    ensures Tracks(a[..], s, perm) && Sorting(a[..], perm, key, i + 1)
    ensures multiset(a[..]) == multiset(s)
  {
    perm := perm0;
    StartInserting(a[..], perm, key, i);
    var j: nat := i;
    while j > 0 && key(a[j - 1]) > key(a[j])
      invariant Tracks(a[..], s, perm) && Inserting(a[..], perm, key, i, j)
      invariant multiset(a[..]) == multiset(s)
    {
      SwapStep(a[..], s, perm, key, i, j);
      SwapWithPrevious(a, j);
      perm := perm[j - 1 := perm[j]][j := perm[j - 1]];
      j := j - 1;
    }
    FinishInserting(a[..], perm, key, i, j);
  }

  /** `list.sort(key=key)`: a stable sort in place, here an insertion sort by adjacent swaps. */
  method StableSortBy<T>(a: array<T>, key: T -> real) returns (ghost perm: seq<nat>)
    modifies a
    ensures StablySortedFrom(a[..], old(a[..]), key, perm)
    ensures multiset(a[..]) == multiset(old(a[..]))
  {
    ghost var s := a[..];
    perm := seq(a.Length, k => k);
    for i := 0 to a.Length
      invariant Tracks(a[..], s, perm) && Sorting(a[..], perm, key, i)
      invariant multiset(a[..]) == multiset(s)
    {
      perm := InsertNext(a, key, i, s, perm);
    }
    Sorted(a[..], s, perm, key);
  }

  /** `/optimize_routes`: sorts the posted locations in place by distance from the centre and
      answers with the sorted list. Computing the key of a location without `lat` or `lon`
      raises, and the answer is that error; the list is then left as it was posted. */
  method OptimizeRoutes(locations: array<Location>, dist: (Coord, Coord) -> real)
    returns (r: Result<seq<Location>, ApiError>, ghost perm: seq<nat>)
    modifies locations
    ensures r.Ok? <==> forall i :: 0 <= i < locations.Length ==> Located(old(locations[i]))
    ensures r.Err? ==> locations[..] == old(locations[..])
    ensures r.Err? ==> exists i :: 0 <= i < locations.Length && !Located(locations[i]) &&
                                   r.error == MissingKey(locations[i]) &&
                                   forall j :: 0 <= j < i ==> Located(locations[j])
    ensures r.Ok? ==> r.value == locations[..]
    ensures locations.Length == 0 ==> r == Ok([])
    ensures r.Ok? ==> StablySortedFrom(r.value, old(locations[..]), RouteKey(dist), perm)
    ensures r.Ok? ==> forall i, j :: 0 <= i < j < |r.value| ==>
                        DistanceFromCenter(dist, r.value[i]) <= DistanceFromCenter(dist, r.value[j])
  {
    for i := 0 to locations.Length
      invariant forall j :: 0 <= j < i ==> Located(locations[j])
    {
      if !Located(locations[i]) {
        return Err(MissingKey(locations[i])), [];
      }
    }
    ghost var s := locations[..];
    perm := StableSortBy(locations, RouteKey(dist));
    forall i | 0 <= i < locations.Length ensures Located(locations[i]) {
      assert locations[i] == s[perm[i]];
    }
    r := Ok(locations[..]);
  }
}
