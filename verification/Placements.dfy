/** Turning an Archipelago seed into MultiWorld placements (cmd/isthmus/convert.go). */
module Placements {
  import opened Collections
  import opened Options
  import opened Text
  import opened Names

  predicate Injective<K(==), V(==)>(m: map<K, V>) {
    forall j, k :: j in m && k in m && m[j] == m[k] ==> j == k
  }

  /** w maps every value of m back to its key, and nothing else. */
  ghost predicate IsInverse<K, V>(m: map<K, V>, w: map<V, K>) {
    && (forall k :: k in m ==> m[k] in w && w[m[k]] == k)
    && (forall v :: v in w ==> w[v] in m && m[w[v]] == v)
  }

  /** invert: fails exactly on a repeated value, in whatever order the entries of the
      map come up. */
  method Invert<K(==), V(==)>(m: map<K, V>) returns (r: Option<map<V, K>>)
    ensures r.Some? <==> Injective(m)
    ensures r.Some? ==> IsInverse(m, r.value)
  {
    var w: map<V, K> := map[];
    var todo := m.Keys;
    while todo != {}
      invariant todo <= m.Keys
      invariant forall k :: k in m && k !in todo ==> m[k] in w && w[m[k]] == k
      invariant forall v :: v in w ==> w[v] in m && w[v] !in todo && m[w[v]] == v
      decreases todo
    {
      var k := Pick(todo);
      if m[k] in w {
        assert w[m[k]] != k && m[w[m[k]]] == m[k];
        return None;
      }
      w := w[m[k] := k];
      todo := todo - {k};
    }
    r := Some(w);
  }

  datatype DataPackage = DataPackage(itemNameToID: map<string, int>, locationNameToID: map<string, int>)

  /** The part of the seed file that concerns its single slot. */
  datatype Seed = Seed(package: Option<DataPackage>, locations: Option<map<int, seq<int>>>, spheres: seq<seq<int>>)

  datatype Placement = Placement(item: string, location: string)

  datatype Error = NoPackage | RepeatedItemID | RepeatedLocationID | NoLocations | UnknownItem(id: int)

  datatype Result = Converted(placements: seq<Placement>) | Failed(error: Error)

  const UNKNOWN_PLACE := "Mystery_Place"

  /** Locations with enough data to hold an item. */
  predicate Filled(locations: map<int, seq<int>>, loc: int) {
    loc in locations && |locations[loc]| >= 2
  }

  function Kept(locations: map<int, seq<int>>, locs: seq<int>): (r: seq<int>)
    ensures forall l :: l in r ==> Filled(locations, l)
  {
    if locs == [] then []
    else
      var front := Kept(locations, locs[..|locs| - 1]);
      if Filled(locations, locs[|locs| - 1]) then front + [locs[|locs| - 1]] else front
  }

  function Flatten(spheres: seq<seq<int>>): seq<int> {
    if spheres == [] then [] else Flatten(spheres[..|spheres| - 1]) + spheres[|spheres| - 1]
  }

  /** The data package's name of a location, or the stand-in for one it does not know. */
  ghost predicate PlaceName(pkg: DataPackage, loc: int, place: string) {
    if loc in pkg.locationNameToID.Values then
      place in pkg.locationNameToID && pkg.locationNameToID[place] == loc
    else
      place == "Mystery_Place"
  }

  /** A placement made as number i for location loc: the item is the one placed there,
      the location reads back as its ID and its name, and the item's number is i. */
  ghost predicate FaithfulAt(pkg: DataPackage, locations: map<int, seq<int>>, loc: int, p: Placement, i: nat) {
    && Filled(locations, loc)
    && HasNumber(p.location, loc) && ParseDiscriminator(p.location) == Some(loc)
    && PlaceName(pkg, loc, StripDiscriminator(p.location))
    && HasNumber(p.item, i) && ParseDiscriminator(p.item) == Some(i)
    && StripDiscriminator(p.item) in pkg.itemNameToID
    && pkg.itemNameToID[StripDiscriminator(p.item)] == locations[loc][0]
  }

  ghost predicate Faithful(pkg: DataPackage, locations: map<int, seq<int>>, kept: seq<int>, ps: seq<Placement>) {
    |ps| == |kept| && forall i :: 0 <= i < |ps| ==> FaithfulAt(pkg, locations, kept[i], ps[i], i)
  }

  /** Go's integers: IDs and lengths fit in 64 bits. */
  ghost predicate Int64Seed(seed: Seed) {
    && (forall i, j :: 0 <= i < |seed.spheres| && 0 <= j < |seed.spheres[i]| ==> InRange(seed.spheres[i][j], 64))
    && |Flatten(seed.spheres)| < Pow2(63)
  }

  lemma KeptSnoc(locations: map<int, seq<int>>, locs: seq<int>, loc: int)
    ensures Kept(locations, locs + [loc]) == Kept(locations, locs) + (if Filled(locations, loc) then [loc] else [])
  {
    assert (locs + [loc])[..|locs|] == locs;
  }

  lemma {:induction false} KeptLength(locations: map<int, seq<int>>, locs: seq<int>)
    ensures |Kept(locations, locs)| <= |locs|
  {
    if locs != [] { KeptLength(locations, locs[..|locs| - 1]); }
  }

  lemma {:induction false} FlattenPrefix(spheres: seq<seq<int>>, s: nat)
    requires s < |spheres|
    ensures Flatten(spheres[..s + 1]) == Flatten(spheres[..s]) + spheres[s]
    ensures |Flatten(spheres[..s])| + |spheres[s]| <= |Flatten(spheres)|
    decreases |spheres| - s
  {
    assert spheres[..s + 1][..s] == spheres[..s];
    if s + 1 < |spheres| {
      FlattenPrefix(spheres, s + 1);
    } else {
      assert spheres[..s + 1] == spheres;
    }
  }

  lemma NewPlacement(pkg: DataPackage, locations: map<int, seq<int>>, itemName: string, place: string,
                     loc: int, i: nat)
    requires Filled(locations, loc) && InRange(loc, 64) && InRange(i, 64) && PlaceName(pkg, loc, place)
    requires itemName in pkg.itemNameToID && pkg.itemNameToID[itemName] == locations[loc][0]
    ensures FaithfulAt(pkg, locations, loc, Placement(Discriminated(itemName, i), Discriminated(place, loc)), i)
  {
    DiscriminatorRoundTrip(itemName, i);
    DiscriminatorRoundTrip(place, loc);
  }

  lemma SnocAt<T>(s: seq<T>, x: T, i: nat)
    requires i <= |s|
    ensures (s + [x])[i] == if i < |s| then s[i] else x
  {
  }

  lemma FaithfulSnoc(pkg: DataPackage, locations: map<int, seq<int>>, kept: seq<int>, ps: seq<Placement>,
                     loc: int, p: Placement)
    requires Faithful(pkg, locations, kept, ps) && FaithfulAt(pkg, locations, loc, p, |ps|)
    ensures Faithful(pkg, locations, kept + [loc], ps + [p])
  {
    forall i | 0 <= i < |ps + [p]|
      ensures FaithfulAt(pkg, locations, (kept + [loc])[i], (ps + [p])[i], i)
    {
      SnocAt(kept, loc, i);
      SnocAt(ps, p, i);
    }
  }

  lemma InverseNames(pkg: DataPackage, names: map<int, string>, loc: int)
    requires IsInverse(pkg.locationNameToID, names)
    ensures PlaceName(pkg, loc, if loc in names then names[loc] else UNKNOWN_PLACE)
  {
    if loc in names { assert pkg.locationNameToID[names[loc]] == loc; }
  }

  lemma KnownIff(pkg: DataPackage, itemNames: map<int, string>, id: int)
    requires IsInverse(pkg.itemNameToID, itemNames)
    ensures id in itemNames <==> id in pkg.itemNameToID.Values
  {
    if id in itemNames { assert pkg.itemNameToID[itemNames[id]] == id; }
  }

  /** Every item placed in a kept location is known. */
  ghost predicate ItemsKnown(pkg: DataPackage, locations: map<int, seq<int>>, locs: seq<int>) {
    forall l :: l in locs && Filled(locations, l) ==> locations[l][0] in pkg.itemNameToID.Values
  }

  /** The error names an item placed in one of the locations that is not known. */
  ghost predicate Unknown(pkg: DataPackage, locations: map<int, seq<int>>, locs: seq<int>, e: Error) {
    && e.UnknownItem? && e.id !in pkg.itemNameToID.Values
    && exists l :: l in locs && Filled(locations, l) && locations[l][0] == e.id
  }

  /** One location of a sphere. */
  method ConvertLocation(ghost pkg: DataPackage, itemNames: map<int, string>, locationNames: map<int, string>,
                         locations: map<int, seq<int>>, ghost kept: seq<int>, ps: seq<Placement>, loc: int)
    returns (r: Option<seq<Placement>>)
    requires IsInverse(pkg.itemNameToID, itemNames) && IsInverse(pkg.locationNameToID, locationNames)
    requires Faithful(pkg, locations, kept, ps) && InRange(loc, 64) && InRange(|ps|, 64)
    ensures r.None? <==> Filled(locations, loc) && locations[loc][0] !in pkg.itemNameToID.Values
    ensures r.Some? ==> Faithful(pkg, locations, kept + (if Filled(locations, loc) then [loc] else []), r.value)
  {
    assert kept + [] == kept;
    if !(loc in locations) { return Some(ps); }
    var p := locations[loc];
    if |p| < 2 { return Some(ps); }
    KnownIff(pkg, itemNames, p[0]);
    if p[0] !in itemNames { return None; }
    var place := if loc in locationNames then locationNames[loc] else UNKNOWN_PLACE;
    InverseNames(pkg, locationNames, loc);
    NewPlacement(pkg, locations, itemNames[p[0]], place, loc, |ps|);
    var q := Placement(Discriminated(itemNames[p[0]], |ps|), Discriminated(place, loc));
    FaithfulSnoc(pkg, locations, kept, ps, loc, q);
    r := Some(ps + [q]);
  }

  lemma KnownSnoc(pkg: DataPackage, locations: map<int, seq<int>>, locs: seq<int>, loc: int)
    requires ItemsKnown(pkg, locations, locs)
    requires Filled(locations, loc) ==> locations[loc][0] in pkg.itemNameToID.Values
    ensures ItemsKnown(pkg, locations, locs + [loc])
  {
  }

  lemma OneMore(before: seq<int>, sphere: seq<int>, j: nat)
    requires j < |sphere|
    ensures sphere[..j + 1] == sphere[..j] + [sphere[j]]
    ensures before + sphere[..j + 1] == before + sphere[..j] + [sphere[j]]
  {
  }

  lemma NextNumberFits(locations: map<int, seq<int>>, before: seq<int>, sphere: seq<int>, j: nat)
    requires |before| + |sphere| < Pow2(63) && j < |sphere|
    ensures InRange(|Kept(locations, before + sphere[..j])|, 64)
  {
    KeptLength(locations, before + sphere[..j]);
  }

  method ConvertSphere(ghost pkg: DataPackage, itemNames: map<int, string>, locationNames: map<int, string>,
                       locations: map<int, seq<int>>, ghost before: seq<int>, sphere: seq<int>, ps: seq<Placement>)
    returns (r: Result)
    requires IsInverse(pkg.itemNameToID, itemNames) && IsInverse(pkg.locationNameToID, locationNames)
    requires Faithful(pkg, locations, Kept(locations, before), ps)
    requires |before| + |sphere| < Pow2(63) && forall j :: 0 <= j < |sphere| ==> InRange(sphere[j], 64)
    ensures r.Converted? <==> ItemsKnown(pkg, locations, sphere)
    ensures r.Converted? ==> Faithful(pkg, locations, Kept(locations, before + sphere), r.placements)
    ensures r.Failed? ==> Unknown(pkg, locations, sphere, r.error)
  {
    var out := ps;
    assert before + sphere[..0] == before;
    for j := 0 to |sphere|
      invariant Faithful(pkg, locations, Kept(locations, before + sphere[..j]), out)
      invariant ItemsKnown(pkg, locations, sphere[..j])
    {
      var loc := sphere[j];
      ghost var done := before + sphere[..j];
      NextNumberFits(locations, before, sphere, j);
      KeptSnoc(locations, done, loc);
      OneMore(before, sphere, j);
      var next := ConvertLocation(pkg, itemNames, locationNames, locations, Kept(locations, done), out, loc);
      if next.None? {
        assert loc in sphere;
        return Failed(UnknownItem(locations[loc][0]));
      }
      KnownSnoc(pkg, locations, sphere[..j], loc);
      out := next.value;
    }
    assert sphere[..|sphere|] == sphere;
    r := Converted(out);
  }

  /** apToMWPlacements. */
  method ApToMwPlacements(seed: Seed) returns (r: Result)
    requires Int64Seed(seed)
    ensures r.Converted? <==>
            && seed.package.Some? && seed.locations.Some?
            && Injective(seed.package.value.itemNameToID) && Injective(seed.package.value.locationNameToID)
            && ItemsKnown(seed.package.value, seed.locations.value, Flatten(seed.spheres))
    ensures r.Converted? ==>
              Faithful(seed.package.value, seed.locations.value,
                       Kept(seed.locations.value, Flatten(seed.spheres)), r.placements)
    ensures r == Failed(NoPackage) <==> seed.package.None?
    ensures r.Failed? && r.error.UnknownItem? ==>
              && seed.package.Some? && seed.locations.Some?
              && Unknown(seed.package.value, seed.locations.value, Flatten(seed.spheres), r.error)
  {
    if seed.package.None? { return Failed(NoPackage); }
    var pkg := seed.package.value;
    var itemNames := Invert(pkg.itemNameToID);
    if itemNames.None? { return Failed(RepeatedItemID); }
    var locationNames := Invert(pkg.locationNameToID);
    if locationNames.None? { return Failed(RepeatedLocationID); }
    if seed.locations.None? { return Failed(NoLocations); }
    var locations := seed.locations.value;
    var ps := [];
    for s := 0 to |seed.spheres|
      invariant Faithful(pkg, locations, Kept(locations, Flatten(seed.spheres[..s])), ps)
      invariant ItemsKnown(pkg, locations, Flatten(seed.spheres[..s]))
    {
      FlattenPrefix(seed.spheres, s);
      ghost var before := Flatten(seed.spheres[..s]);
      var next := ConvertSphere(pkg, itemNames.value, locationNames.value, locations, before, seed.spheres[s], ps);
      if next.Failed? {
        SphereInFlatten(seed.spheres, s);
        return next;
      }
      ps := next.placements;
    }
    assert seed.spheres[..|seed.spheres|] == seed.spheres;
    r := Converted(ps);
  }

  lemma {:induction false} SphereInFlatten(spheres: seq<seq<int>>, s: nat)
    requires s < |spheres|
    ensures forall l :: l in spheres[s] ==> l in Flatten(spheres)
    decreases |spheres|
  {
    if s < |spheres| - 1 { SphereInFlatten(spheres[..|spheres| - 1], s); }
  }

  /** Item names are unique, as the MultiWorld protocol requires. */
  lemma ItemNamesDistinct(pkg: DataPackage, locations: map<int, seq<int>>, kept: seq<int>, ps: seq<Placement>,
                          i: nat, j: nat)
    requires Faithful(pkg, locations, kept, ps) && i < j < |ps|
    ensures ps[i].item != ps[j].item
  {
    assert FaithfulAt(pkg, locations, kept[i], ps[i], i) && FaithfulAt(pkg, locations, kept[j], ps[j], j);
  }

  /** The server hands our items back qualified with a player; both parts are read
      back, and the item still leads to the ID that was placed. */
  lemma QualifiedItemKeepsIdentity(pkg: DataPackage, locations: map<int, seq<int>>, kept: seq<int>,
                                   ps: seq<Placement>, i: nat, pid: int)
    requires Faithful(pkg, locations, kept, ps) && i < |ps| && InRange(pid, 32)
    ensures var q := ParseQualifiedName(Qualified(pid, ps[i].item));
            && q == Some((pid, ps[i].item))
            && var name := StripDiscriminator(q.value.1);
               name in pkg.itemNameToID && Filled(locations, kept[i])
               && pkg.itemNameToID[name] == locations[kept[i]][0]
  {
    QualifiedRoundTrip(pid, ps[i].item);
    assert FaithfulAt(pkg, locations, kept[i], ps[i], i);
  }
}
