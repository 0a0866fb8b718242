/** From the server's result message to a running session: createSavefile
    (cmd/isthmus/savefile.go) and the start of playMWWithConn (cmd/isthmus/play.go). */
module Setup {
  import opened Collections
  import opened Options
  import opened Text
  import opened Exchange
  import opened SyntheticIds
  import Names

  /** Where the server put an item of our world. */
  datatype Spot = Spot(item: string, location: string)

  datatype ServerResult = ServerResult(
    playerID: int,
    nicknames: seq<string>,
    spots: seq<Spot>,
    ownItems: map<string, string>)  // our items -> qualified location

  datatype Tables = Tables(
    playerID: int,
    nicknames: seq<string>,
    worldRows: map<int, Placement>,
    itemRows: map<string, OwnItem>)

  /** The row of mw_own_world_placements, unless the location does not end in ")", the item
      is not qualified or the player is not in mw_players. */
  function WorldRow(p: Spot, players: nat): Option<Placement> {
    var loc := Names.ParseDiscriminator(p.location);
    var item := Names.ParseQualifiedName(p.item);
    if loc.None? || item.None? || !(0 <= item.value.0 < players) then None
    else Some(Placement(loc.value, item.value.1, item.value.0))
  }

  /** The row of mw_own_item_placements. */
  function ItemRow(item: string, location: string, players: nat): Option<OwnItem> {
    var loc := Names.ParseQualifiedName(location);
    if loc.None? || !(0 <= loc.value.0 < players) then None
    else Some(OwnItem(item, loc.value.0, loc.value.1))
  }

  /** Which rows are refused, and where an accepted one is stored: under the number in its
      location if there is one, else under 0. */
  lemma RowRefusedIff(p: Spot, players: nat)
    ensures WorldRow(p, players).None? <==>
            || !Names.EndsInParenthesis(p.location)
            || Names.ParseQualifiedName(p.item).None?
            || !(0 <= Names.ParseQualifiedName(p.item).value.0 < players)
    ensures WorldRow(p, players).Some? ==>
              var loc := WorldRow(p, players).value.loc;
              Names.HasNumber(p.location, loc) || (loc == 0 && forall n :: !Names.HasNumber(p.location, n))
  {
    Names.RefusedIff(p.location);
    if WorldRow(p, players).Some? { Names.ParsedNumberIff(p.location, WorldRow(p, players).value.loc); }
  }

  /** The row of a placement, in terms of the two names alone. */
  lemma WorldRowIff(p: Spot, players: nat, row: Placement)
    ensures WorldRow(p, players) == Some(row) <==>
            && 0 <= row.owner < players
            && (exists j :: Names.QualifiedAt(p.item, j, row.owner, row.name))
            && (|| Names.HasNumber(p.location, row.loc)
                || (row.loc == 0 && Names.EndsInParenthesis(p.location) && forall n :: !Names.HasNumber(p.location, n)))
  {
    Names.ParsedNumberIff(p.location, row.loc);
    Names.QualifiedIff(p.item, row.owner, row.name);
  }

  /** A result with two locations that carry no number is refused, because both would be
      stored under 0; with one it may go through. */
  lemma UnreadableLocationsCollide(spots: seq<Spot>, players: nat, i: nat, j: nat)
    requires i < j < |spots|
    requires forall n :: !Names.HasNumber(spots[i].location, n) && !Names.HasNumber(spots[j].location, n)
    ensures !SpotsFit(spots, players)
  {
    RowRefusedIff(spots[i], players);
    RowRefusedIff(spots[j], players);
  }

  /** Any location that ends in ")" and carries no number is stored as location 0. */
  lemma UnreadableLocationIsStored(name: string, pid: int, location: string, players: nat)
    requires 0 <= pid < players && InRange(pid, 32)
    requires Names.EndsInParenthesis(location) && forall n :: !Names.HasNumber(location, n)
    ensures WorldRow(Spot(Names.Qualified(pid, name), location), players) == Some(Placement(0, name, pid))
  {
    Names.ParsedNumberIff(location, 0);
    Names.QualifiedRoundTrip(pid, name);
  }

  /* Storing */

  /** All rows are well formed and no two have the same location. */
  ghost predicate SpotsFit(spots: seq<Spot>, players: nat) {
    && (forall i :: 0 <= i < |spots| ==> WorldRow(spots[i], players).Some?)
    && (forall i, j :: 0 <= i < j < |spots| ==>
          WorldRow(spots[i], players).value.loc != WorldRow(spots[j], players).value.loc)
  }

  ghost predicate InRows(rows: map<int, Placement>, p: Spot, players: nat) {
    var row := WorldRow(p, players);
    row.Some? && row.value.loc in rows && rows[row.value.loc] == row.value
  }

  ghost predicate FromSpots(row: Placement, spots: seq<Spot>, players: nat) {
    exists i :: 0 <= i < |spots| && WorldRow(spots[i], players) == Some(row)
  }

  ghost predicate HoldsSpots(rows: map<int, Placement>, spots: seq<Spot>, players: nat) {
    && (forall i :: 0 <= i < |spots| ==> InRows(rows, spots[i], players))
    && (forall l :: l in rows ==> rows[l].loc == l && FromSpots(rows[l], spots, players))
  }

  lemma RepeatedSpot(rows: map<int, Placement>, spots: seq<Spot>, players: nat, k: nat)
    requires k < |spots| && HoldsSpots(rows, spots[..k], players)
    requires WorldRow(spots[k], players).Some? && WorldRow(spots[k], players).value.loc in rows
    ensures !SpotsFit(spots, players)
  {
    var l := WorldRow(spots[k], players).value.loc;
    assert FromSpots(rows[l], spots[..k], players);
    var i :| 0 <= i < k && WorldRow(spots[..k][i], players) == Some(rows[l]);
    assert spots[..k][i] == spots[i];
  }

  lemma OneMoreFits(rows: map<int, Placement>, spots: seq<Spot>, players: nat, p: Spot)
    requires HoldsSpots(rows, spots, players) && SpotsFit(spots, players)
    requires WorldRow(p, players).Some? && WorldRow(p, players).value.loc !in rows
    ensures SpotsFit(spots + [p], players)
  {
    forall i | 0 <= i < |spots|
      ensures WorldRow(spots[i], players).value.loc != WorldRow(p, players).value.loc
    {
      assert InRows(rows, spots[i], players);
    }
  }

  lemma FromMore(row: Placement, spots: seq<Spot>, players: nat, p: Spot)
    requires FromSpots(row, spots, players) || WorldRow(p, players) == Some(row)
    ensures FromSpots(row, spots + [p], players)
  {
    var more := spots + [p];
    if FromSpots(row, spots, players) {
      var i :| 0 <= i < |spots| && WorldRow(spots[i], players) == Some(row);
      assert more[i] == spots[i];
    } else {
      assert more[|spots|] == p;
    }
  }

  lemma OneMoreSpot(rows: map<int, Placement>, spots: seq<Spot>, players: nat, p: Spot)
    requires HoldsSpots(rows, spots, players)
    requires WorldRow(p, players).Some? && WorldRow(p, players).value.loc !in rows
    ensures var row := WorldRow(p, players).value; HoldsSpots(rows[row.loc := row], spots + [p], players)
  {
    var row := WorldRow(p, players).value;
    var rows' := rows[row.loc := row];
    forall i | 0 <= i < |spots|
      ensures InRows(rows', spots[i], players)
    {
      assert InRows(rows, spots[i], players);
    }
    forall l | l in rows'
      ensures rows'[l].loc == l && FromSpots(rows'[l], spots + [p], players)
    {
      FromMore(rows'[l], spots, players, p);
    }
  }

  /** The insertions into mw_own_world_placements. */
  method StoreSpots(spots: seq<Spot>, players: nat) returns (r: Option<map<int, Placement>>)
    ensures r.Some? <==> SpotsFit(spots, players)
    ensures r.Some? ==> HoldsSpots(r.value, spots, players)
  {
    var rows: map<int, Placement> := map[];
    for k := 0 to |spots|
      invariant SpotsFit(spots[..k], players) && HoldsSpots(rows, spots[..k], players)
    {
      var row := WorldRow(spots[k], players);
      if row.None? { return None; }
      if row.value.loc in rows {
        RepeatedSpot(rows, spots, players, k);
        return None;
      }
      OneMoreFits(rows, spots[..k], players, spots[k]);
      OneMoreSpot(rows, spots[..k], players, spots[k]);
      PrefixSnoc(spots, k);
      rows := rows[row.value.loc := row.value];
    }
    assert spots[..|spots|] == spots;
    r := Some(rows);
  }

  ghost predicate OwnItemsFit(items: map<string, string>, players: nat) {
    forall k :: k in items ==> ItemRow(k, items[k], players).Some?
  }

  /** The insertions into mw_own_item_placements, in whatever order the items come up. */
  method StoreOwnItems(items: map<string, string>, players: nat) returns (r: Option<map<string, OwnItem>>)
    ensures r.Some? <==> OwnItemsFit(items, players)
    ensures r.Some? ==> r.value.Keys == items.Keys
    ensures r.Some? ==> forall k :: k in items ==> ItemRow(k, items[k], players) == Some(r.value[k])
  {
    var rows: map<string, OwnItem> := map[];
    var todo := items.Keys;
    while todo != {}
      invariant todo <= items.Keys && rows.Keys == items.Keys - todo
      invariant forall k :: k in rows ==> ItemRow(k, items[k], players) == Some(rows[k])
      decreases todo
    {
      var k := Pick(todo);
      var row := ItemRow(k, items[k], players);
      if row.None? { return None; }
      rows := rows[k := row.value];
      todo := todo - {k};
    }
    r := Some(rows);
  }

  /** createSavefile succeeds exactly when no row is refused, no two placements are stored
      under the same location and all players are known. */
  method CreateSavefile(result: ServerResult) returns (r: Option<Tables>)
    ensures var n := |result.nicknames|;
            r.Some? <==> 0 <= result.playerID < n && SpotsFit(result.spots, n) && OwnItemsFit(result.ownItems, n)
    ensures r.Some? ==> Stored(result, r.value)
  {
    var n := |result.nicknames|;
    if !(0 <= result.playerID < n) { return None; }
    var worldRows := StoreSpots(result.spots, n);
    if worldRows.None? { return None; }
    var itemRows := StoreOwnItems(result.ownItems, n);
    if itemRows.None? { return None; }
    r := Some(Tables(result.playerID, result.nicknames, worldRows.value, itemRows.value));
  }

  ghost predicate Stored(result: ServerResult, t: Tables) {
    && t.playerID == result.playerID && t.nicknames == result.nicknames
    && HoldsSpots(t.worldRows, result.spots, |t.nicknames|)
    && t.itemRows.Keys == result.ownItems.Keys
    && forall k :: k in result.ownItems ==> ItemRow(k, result.ownItems[k], |t.nicknames|) == Some(t.itemRows[k])
  }

  /* Loading */

  method SmallestKey(keys: set<int>) returns (min: int)
    requires keys != {}
    ensures min in keys && forall k :: k in keys ==> min <= k
  {
    min := Pick(keys);
    var left := keys;
    while left != {}
      invariant left <= keys && min in keys
      invariant forall k :: k in keys && k !in left ==> min <= k
      decreases left
    {
      var k := Pick(left);
      if k < min { min := k; }
      left := left - {k};
    }
  }

  /** getOwnWorldPlacements: the rows ordered by location. */
  method OrderByLocation(rows: map<int, Placement>) returns (ps: seq<Placement>)
    requires forall l :: l in rows ==> rows[l].loc == l
    ensures forall i, j :: 0 <= i < j < |ps| ==> ps[i].loc < ps[j].loc
    ensures forall p :: p in ps <==> p.loc in rows && rows[p.loc] == p
  {
    ps := [];
    var left := rows.Keys;
    while left != {}
      invariant left <= rows.Keys
      invariant forall i, j :: 0 <= i < j < |ps| ==> ps[i].loc < ps[j].loc
      invariant forall p :: p in ps <==> p.loc in rows && p.loc !in left && rows[p.loc] == p
      invariant forall i, l :: 0 <= i < |ps| && l in left ==> ps[i].loc < l
      decreases left
    {
      var l := SmallestKey(left);
      ps := ps + [rows[l]];
      left := left - {l};
    }
  }

  /** The rows of mw_own_item_placements, in some order. */
  method ListOwnItems(rows: map<string, OwnItem>) returns (items: seq<OwnItem>)
    requires forall k :: k in rows ==> rows[k].name == k
    ensures forall i, j :: 0 <= i < j < |items| ==> items[i].name != items[j].name
    ensures forall x :: x in items <==> x.name in rows && rows[x.name] == x
  {
    items := [];
    var left := rows.Keys;
    while left != {}
      invariant left <= rows.Keys
      invariant forall i, j :: 0 <= i < j < |items| ==> items[i].name != items[j].name
      invariant forall x :: x in items <==> x.name in rows && x.name !in left && rows[x.name] == x
      decreases left
    {
      var k := Pick(left);
      assert forall i :: 0 <= i < |items| ==> items[i] in items;
      items := items + [rows[k]];
      left := left - {k};
    }
  }

  /** What the seed file adds: our game, its item IDs and its locations. */
  datatype SeedFile = SeedFile(game: string, itemNameToID: map<string, int>, ownLocations: map<int, seq<int>>)

  datatype Session = Session(world: World, itemIDs: SyntheticIds.Tables, items: nat, locations: nat)

  function GameOf(nicknames: seq<string>, playerID: int, game: string, i: int): string
    requires 0 <= i < |nicknames|
  {
    if i == playerID then game else nicknames[i] + "'s World"
  }

  /** What every theorem about a session starts from. */
  ghost predicate Ready(s: Session) {
    && ValidWorld(s.world)
    && 0 <= s.world.playerID < |s.world.games|
    && Numbered(s.itemIDs, s.items) && Covers(s.itemIDs, s.world.games, ItemEntries(s.world.placements))
    && Numbered(s.world.locationIDs, s.locations)
    && Covers(s.world.locationIDs, s.world.games, LocationEntries(s.world.ownItems))
  }

  /** The session's world is the one the server's result describes. */
  ghost predicate Reflects(w: World, result: ServerResult, seed: SeedFile) {
    var n := |result.nicknames|;
    && w.playerID == result.playerID && w.nicknames == result.nicknames
    && |w.games| == n && (forall i :: 0 <= i < n ==> w.games[i] == GameOf(w.nicknames, w.playerID, seed.game, i))
    && w.itemNameToID == seed.itemNameToID && w.ownLocations == seed.ownLocations
    && (forall p :: p in w.placements <==> FromSpots(p, result.spots, n))
    && (forall x :: x in w.ownItems <==>
          x.name in result.ownItems && ItemRow(x.name, result.ownItems[x.name], n) == Some(x))
  }

  lemma PlacementsReflect(result: ServerResult, t: Tables, ps: seq<Placement>, p: Placement)
    requires Stored(result, t) && forall q :: q in ps <==> q.loc in t.worldRows && t.worldRows[q.loc] == q
    ensures p in ps <==> FromSpots(p, result.spots, |t.nicknames|)
  {
    if FromSpots(p, result.spots, |t.nicknames|) {
      var i :| 0 <= i < |result.spots| && WorldRow(result.spots[i], |t.nicknames|) == Some(p);
      assert InRows(t.worldRows, result.spots[i], |t.nicknames|);
    }
  }

  lemma OwnItemsReflect(result: ServerResult, t: Tables, items: seq<OwnItem>, x: OwnItem)
    requires Stored(result, t) && forall y :: y in items <==> y.name in t.itemRows && t.itemRows[y.name] == y
    ensures x in items <==>
            x.name in result.ownItems && ItemRow(x.name, result.ownItems[x.name], |t.nicknames|) == Some(x)
  {
  }

  method NameGames(nicknames: seq<string>, playerID: int, game: string) returns (games: seq<string>)
    ensures |games| == |nicknames|
    ensures forall i :: 0 <= i < |games| ==> games[i] == GameOf(nicknames, playerID, game, i)
  {
    games := [];
    for i := 0 to |nicknames|
      invariant |games| == i && forall j :: 0 <= j < i ==> games[j] == GameOf(nicknames, playerID, game, j)
    {
      games := games + [GameOf(nicknames, playerID, game, i)];
    }
  }

  /** The start of a session on a stored savefile. Everything the message handlers rely
      on holds, whatever the server had sent. */
  method OpenSession(t: Tables, seed: SeedFile, ghost result: ServerResult) returns (s: Session)
    requires Stored(result, t) && 0 <= t.playerID < |t.nicknames|
    ensures Ready(s) && Reflects(s.world, result, seed)
  {
    var games := NameGames(t.nicknames, t.playerID, seed.game);
    var placements := OrderByLocation(t.worldRows);
    var ownItems := ListOwnItems(t.itemRows);
    var itemIDs, items := AssignIDs(games, ItemEntries(placements));
    var locationIDs, locations := AssignIDs(games, LocationEntries(ownItems));
    var w := World(t.playerID, t.nicknames, games, seed.itemNameToID, locationIDs, seed.ownLocations,
                   placements, ownItems);
    forall p
      ensures p in placements <==> FromSpots(p, result.spots, |t.nicknames|)
    {
      PlacementsReflect(result, t, placements, p);
    }
    forall x
      ensures x in ownItems <==>
              x.name in result.ownItems && ItemRow(x.name, result.ownItems[x.name], |t.nicknames|) == Some(x)
    {
      OwnItemsReflect(result, t, ownItems, x);
    }
    PlayersKnown(w, result, seed);
    s := Session(w, itemIDs, items, locations);
  }

  lemma PlayersKnown(w: World, result: ServerResult, seed: SeedFile)
    requires Reflects(w, result, seed)
    ensures forall i :: 0 <= i < |w.placements| ==> 0 <= w.placements[i].owner < |result.nicknames|
    ensures forall i :: 0 <= i < |w.ownItems| ==> 0 <= w.ownItems[i].player < |result.nicknames|
  {
    forall i | 0 <= i < |w.placements|
      ensures 0 <= w.placements[i].owner < |result.nicknames|
    {
      assert w.placements[i] in w.placements;
    }
    forall i | 0 <= i < |w.ownItems|
      ensures 0 <= w.ownItems[i].player < |result.nicknames|
    {
      assert w.ownItems[i] in w.ownItems;
    }
  }

  /** Our game is the one of the seed; every other player has a world of its own name, so
      that two of them share one only if they share the nickname. */
  lemma GamesAreNamed(w: World, result: ServerResult, seed: SeedFile, i: nat, j: nat)
    requires Reflects(w, result, seed) && i < |w.games| && j < |w.games|
    ensures i == w.playerID ==> w.games[i] == seed.game
    ensures i != w.playerID ==> w.games[i] == result.nicknames[i] + "'s World"
    ensures i != w.playerID && j != w.playerID && w.games[i] == w.games[j] ==>
              result.nicknames[i] == result.nicknames[j]
  {
    if i != w.playerID && j != w.playerID && w.games[i] == w.games[j] {
      var a, b := result.nicknames[i], result.nicknames[j];
      assert |a| == |b|;
      assert (a + "'s World")[..|a|] == a && (b + "'s World")[..|b|] == b;
    }
  }
}
