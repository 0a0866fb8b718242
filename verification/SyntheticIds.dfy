/** The IDs made up for items and locations of other worlds (cmd/isthmus/play.go). */
module SyntheticIds {
  import opened Options
  import opened Exchange
  import Names

  /** A name in the world of a player. */
  datatype Entry = Entry(player: int, name: string)

  type Tables = map<string, map<string, int>>  // by game, then by name

  function ReplaceUnderscores(s: string): string {
    seq(|s|, i requires 0 <= i < |s| => if s[i] == '_' then ' ' else s[i])
  }

  function PrettifyName(name: string): string {
    ReplaceUnderscores(Names.StripDiscriminator(name))
  }

  /** The pretty name of an item: its own name with spaces for underscores. */
  lemma PrettyNameIs(name: string, n: int)
    ensures var pretty := PrettifyName(Names.Discriminated(name, n));
            |pretty| == |name| && forall i :: 0 <= i < |name| ==> pretty[i] == if name[i] == '_' then ' ' else name[i]
  {
    Names.DiscriminatorRoundTrip(name, n);
  }

  predicate Has(t: Tables, game: string, name: string) {
    game in t && name in t[game]
  }

  ghost predicate Used(t: Tables, id: int) {
    exists g, s :: Has(t, g, s) && t[g][s] == id
  }

  /** The IDs in use are exactly 1 to n, each for one name. */
  ghost predicate Numbered(t: Tables, n: nat) {
    && (forall g, s :: Has(t, g, s) ==> 1 <= t[g][s] <= n)
    && (forall g, s, g', s' :: Has(t, g, s) && Has(t, g', s') && t[g][s] == t[g'][s'] ==> g == g' && s == s')
    && (forall id :: 1 <= id <= n ==> Used(t, id))
  }

  predicate Ranged(games: seq<string>, e: Entry) {
    0 <= e.player < |games|
  }

  /** Exactly the names of the entries in range are in the tables of their games. */
  ghost predicate Covers(t: Tables, games: seq<string>, entries: seq<Entry>) {
    && (forall i :: 0 <= i < |games| ==> games[i] in t)
    && (forall e :: e in entries && Ranged(games, e) ==> Has(t, games[e.player], e.name))
    && (forall g, s :: Has(t, g, s) ==>
          exists e :: e in entries && Ranged(games, e) && games[e.player] == g && e.name == s)
  }

  function Put(t: Tables, g: string, s: string, id: int): Tables
    requires g in t
  {
    t[g := t[g][s := id]]
  }

  lemma PutHas(t: Tables, g: string, s: string, id: int)
    requires g in t
    ensures forall h, r :: Has(Put(t, g, s, id), h, r) <==> Has(t, h, r) || (h == g && r == s)
    ensures forall h, r :: Has(Put(t, g, s, id), h, r) ==>
              Put(t, g, s, id)[h][r] == if h == g && r == s then id else t[h][r]
  {
  }

  lemma AddNameUses(t: Tables, n: nat, g: string, s: string, id: int)
    requires Numbered(t, n) && g in t && s !in t[g] && 1 <= id <= n + 1
    ensures Used(Put(t, g, s, n + 1), id)
  {
    var u := Put(t, g, s, n + 1);
    PutHas(t, g, s, n + 1);
    if id == n + 1 {
      assert Has(u, g, s);
    } else {
      assert Used(t, id);
      var h, r :| Has(t, h, r) && t[h][r] == id;
      assert Has(u, h, r);
    }
  }

  lemma AddName(t: Tables, n: nat, g: string, s: string)
    requires Numbered(t, n) && g in t && s !in t[g]
    ensures Numbered(Put(t, g, s, n + 1), n + 1)
  {
    var u := Put(t, g, s, n + 1);
    PutHas(t, g, s, n + 1);
    forall id | 1 <= id <= n + 1
      ensures Used(u, id)
    {
      AddNameUses(t, n, g, s, id);
    }
    forall h, r, h', r' | Has(u, h, r) && Has(u, h', r') && u[h][r] == u[h'][r']
      ensures h == h' && r == r'
    {
      if u[h][r] != n + 1 { assert Has(t, h, r) && Has(t, h', r'); }
    }
  }

  lemma AddCovers(t: Tables, games: seq<string>, entries: seq<Entry>, e: Entry, id: int)
    requires Covers(t, games, entries) && Ranged(games, e)
    ensures var g := games[e.player];
            Covers(if Has(t, g, e.name) then t else Put(t, g, e.name, id), games, entries + [e])
  {
    var g := games[e.player];
    var u := if Has(t, g, e.name) then t else Put(t, g, e.name, id);
    var all := entries + [e];
    PutHas(t, g, e.name, id);
    forall h, s | Has(u, h, s)
      ensures exists x :: x in all && Ranged(games, x) && games[x.player] == h && x.name == s
    {
      if h == g && s == e.name {
        assert e in all;
      } else {
        assert Has(t, h, s);
        var x :| x in entries && Ranged(games, x) && games[x.player] == h && x.name == s;
        assert x in all;
      }
    }
  }

  lemma SkipCovers(t: Tables, games: seq<string>, entries: seq<Entry>, e: Entry)
    requires Covers(t, games, entries) && !Ranged(games, e)
    ensures Covers(t, games, entries + [e])
  {
    var all := entries + [e];
    forall h, s | Has(t, h, s)
      ensures exists x :: x in all && Ranged(games, x) && games[x.player] == h && x.name == s
    {
      var x :| x in entries && Ranged(games, x) && games[x.player] == h && x.name == s;
      assert x in all;
    }
  }

  /** The loops that hand out IDs: entries of unknown players are skipped, a name seen
      before keeps its ID, a new one gets the next. */
  method AssignIDs(games: seq<string>, entries: seq<Entry>) returns (t: Tables, n: nat)
    ensures Numbered(t, n) && Covers(t, games, entries)
  {
    t := map[];
    for i := 0 to |games|
      invariant forall j :: 0 <= j < i ==> games[j] in t
      invariant forall g, s :: !Has(t, g, s)
    {
      var u := t[games[i] := map[]];
      assert forall g, s :: Has(u, g, s) ==> Has(t, g, s);
      t := u;
    }
    var next := 1;
    for k := 0 to |entries|
      invariant next >= 1 && Numbered(t, next - 1) && Covers(t, games, entries[..k])
    {
      var e := entries[k];
      assert entries[..k + 1] == entries[..k] + [e];
      if !(0 <= e.player < |games|) {
        SkipCovers(t, games, entries[..k], e);
        continue;
      }
      AddCovers(t, games, entries[..k], e, next);
      var game := games[e.player];
      if e.name !in t[game] {
        AddName(t, next - 1, game, e.name);
        t := Put(t, game, e.name, next);
        next := next + 1;
      }
    }
    assert entries[..|entries|] == entries;
    n := next - 1;
  }

  function ItemEntries(ps: seq<Placement>): seq<Entry> {
    seq(|ps|, i requires 0 <= i < |ps| => Entry(ps[i].owner, PrettifyName(ps[i].name)))
  }

  function LocationEntries(items: seq<OwnItem>): seq<Entry> {
    seq(|items|, i requires 0 <= i < |items| => Entry(items[i].player, items[i].locationName))
  }

  /** LocationScouts for one location; `items` is the table of synthetic item IDs. */
  function Scout(w: World, items: Tables, loc: int): Option<NetworkItem>
    requires ValidWorld(w)
  {
    var p := PlacedAt(w, loc);
    if p.Some? then
      assert p.value in w.placements;
      var id :=
        if p.value.owner == w.playerID then ItemID(w, p.value.name)
        else
          var game := w.games[p.value.owner];
          if game in items then Lookup(items[game], PrettifyName(p.value.name)) else 0;
      Some(NetworkItem(id, loc, p.value.owner + 1, 0))
    else
      CheckedEntry(w, loc)
  }

  /** Scouting another player's item gives a player in range and a made-up ID that no
      other name has. */
  lemma ScoutResolves(w: World, items: Tables, n: nat, loc: int)
    requires ValidWorld(w) && Foreign(w, loc)
    requires Numbered(items, n) && Covers(items, w.games, ItemEntries(w.placements))
    ensures Scout(w, items, loc).Some?
    ensures 1 <= Scout(w, items, loc).value.player <= |w.games|
    ensures 1 <= Scout(w, items, loc).value.item <= n
    ensures items[w.games[PlacedAt(w, loc).value.owner]][PrettifyName(PlacedAt(w, loc).value.name)] ==
            Scout(w, items, loc).value.item
  {
    var p := PlacedAt(w, loc).value;
    var i :| 0 <= i < |w.placements| && w.placements[i] == p;
    assert ItemEntries(w.placements)[i] == Entry(p.owner, PrettifyName(p.name));
    assert Has(items, w.games[p.owner], PrettifyName(p.name));
  }

  /** Two scouted foreign items get the same ID only if they have the same pretty name
      in the same game. */
  lemma ScoutsDiffer(w: World, items: Tables, n: nat, a: int, b: int)
    requires ValidWorld(w) && Foreign(w, a) && Foreign(w, b)
    requires Numbered(items, n) && Covers(items, w.games, ItemEntries(w.placements))
    requires Scout(w, items, a).value.item == Scout(w, items, b).value.item
    ensures var p, q := PlacedAt(w, a).value, PlacedAt(w, b).value;
            w.games[p.owner] == w.games[q.owner] && PrettifyName(p.name) == PrettifyName(q.name)
  {
    ScoutResolves(w, items, n, a);
    ScoutResolves(w, items, n, b);
    var p, q := PlacedAt(w, a).value, PlacedAt(w, b).value;
    assert Has(items, w.games[p.owner], PrettifyName(p.name)) && Has(items, w.games[q.owner], PrettifyName(q.name));
  }

  /** Every collected item comes with a player in range and a location ID that is set. */
  lemma CollectedResolves(w: World, n: nat, own: OwnItem)
    requires ValidWorld(w) && own in w.ownItems
    requires Numbered(w.locationIDs, n) && Covers(w.locationIDs, w.games, LocationEntries(w.ownItems))
    ensures var e := CollectedEntry(w, own);
            1 <= e.player <= |w.games| && 1 <= e.location <= n
  {
    var i :| 0 <= i < |w.ownItems| && w.ownItems[i] == own;
    assert LocationEntries(w.ownItems)[i] == Entry(own.player, own.locationName);
    assert Has(w.locationIDs, w.games[own.player], own.locationName);
  }
}
