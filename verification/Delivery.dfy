/** What the messages say, in the terms of the tables and of the server's result: which
    items are collected, what an entry carries, to whom an item is sent. */
module Delivery {
  import opened Collections
  import opened Options
  import opened Text
  import opened Exchange
  import opened Handlers
  import opened WholeRuns
  import Entries
  import opened PrimaryKeys
  import opened Setup
  import opened SyntheticIds
  import Names

  /** The ID the data package has for the stripped name, or 0. */
  ghost predicate HasPackageID(w: World, name: string, id: int) {
    var stripped := Names.StripDiscriminator(name);
    if stripped in w.itemNameToID then id == w.itemNameToID[stripped] else id == 0
  }

  /** The made-up ID of a place in a player's world, or 0. */
  ghost predicate HasPlaceID(w: World, player: int, place: string, id: int)
    requires 0 <= player < |w.games|
  {
    var game := w.games[player];
    if game in w.locationIDs && place in w.locationIDs[game] then id == w.locationIDs[game][place] else id == 0
  }

  /** A new savefile: one entry per precollected item, from the server. */
  lemma InitialLogIs(precollected: seq<int>)
    ensures var log := Initial(precollected).log;
            |log| == |precollected| &&
            forall i :: 0 <= i < |log| ==> log[i] == NetworkItem(precollected[i], -2, 0, 0)
  {
  }

  /* Collecting */

  /** One of our items in another world, of which no receipt is recorded. */
  ghost predicate Outstanding(w: World, s: State, x: OwnItem) {
    x in w.ownItems && x.player != w.playerID && Item("MultiWorld-Item", x.name) !in s.received
  }

  lemma {:induction false} CollectableIff(w: World, received: set<Item>, items: seq<OwnItem>, x: OwnItem)
    ensures x in Collectable(w, received, items) <==>
            x in items && x.player != w.playerID && Item("MultiWorld-Item", x.name) !in received
  {
    if items != [] { CollectableIff(w, received, items[1..], x); }
  }

  ghost predicate NamesDiffer(items: seq<OwnItem>) {
    forall i, j :: 0 <= i < j < |items| ==> items[i].name != items[j].name
  }

  lemma NamesDifferCons(x: OwnItem, rest: seq<OwnItem>)
    requires NamesDiffer(rest) && forall i :: 0 <= i < |rest| ==> rest[i].name != x.name
    ensures NamesDiffer([x] + rest)
  {
  }

  lemma {:induction false} CollectableDiffer(w: World, received: set<Item>, items: seq<OwnItem>)
    requires NamesDiffer(items)
    ensures NamesDiffer(Collectable(w, received, items))
  {
    if items != [] {
      var rest := Collectable(w, received, items[1..]);
      CollectableDiffer(w, received, items[1..]);
      forall i | 0 <= i < |rest|
        ensures rest[i].name != items[0].name
      {
        assert rest[i] in rest;
        var j :| 0 <= j < |items[1..]| && items[1..][j] == rest[i];
        assert items[j + 1] == rest[i];
      }
      NamesDifferCons(items[0], rest);
    }
  }

  function CollectedOrigins(own: seq<OwnItem>): seq<Origin> {
    seq(|own|, i requires 0 <= i < |own| => Collected(own[i].name))
  }

  lemma {:induction false} CollectedOnce(own: seq<OwnItem>, name: string)
    requires NamesDiffer(own)
    ensures multiset(CollectedOrigins(own))[Collected(name)] ==
            if exists i :: 0 <= i < |own| && own[i].name == name then 1 else 0
  {
    if own != [] {
      var rest := CollectedOrigins(own[1..]);
      assert CollectedOrigins(own) == [Collected(own[0].name)] + rest;
      CountAppend([Collected(own[0].name)], rest, Collected(name));
      CollectedOnce(own[1..], name);
      if i :| 0 < i < |own| && own[i].name == name { assert own[1..][i - 1].name == name; }
    }
  }

  /** The entry of a collected item: its ID, where it lies and in whose world. */
  ghost predicate CollectedAs(w: World, x: OwnItem, e: NetworkItem)
    requires 0 <= x.player < |w.games|
  {
    HasPackageID(w, x.name, e.item) && HasPlaceID(w, x.player, x.locationName, e.location)
    && e.player == x.player + 1 && e.flags == 0
  }

  /** One entry for each of our outstanding items, and no other. */
  ghost predicate CollectedExactly(w: World, s: State, entries: seq<NetworkItem>, why: seq<Origin>) {
    && |entries| == |why|
    && (forall name :: multiset(why)[Collected(name)] ==
          if exists x :: Outstanding(w, s, x) && x.name == name then 1 else 0)
    && (forall k :: 0 <= k < |why| ==> CollectedFor(w, s, entries[k], why[k]))
  }

  ghost predicate CollectedFor(w: World, s: State, e: NetworkItem, why: Origin) {
    exists x :: Outstanding(w, s, x) && why == Collected(x.name) && 0 <= x.player < |w.games| && CollectedAs(w, x, e)
  }

  lemma CollectedForOne(w: World, s: State, own: seq<OwnItem>, k: nat)
    requires ValidWorld(w) && own == Collectable(w, s.received, w.ownItems) && k < |own|
    ensures own[k] in w.ownItems
    ensures CollectedFor(w, s, CollectedEntry(w, own[k]), Collected(own[k].name))
  {
    assert own[k] in own;
    CollectableIff(w, s.received, w.ownItems, own[k]);
    assert CollectedAs(w, own[k], CollectedEntry(w, own[k]));
  }

  lemma CollectPlanIsExact(w: World, s: State)
    requires ValidWorld(w)
    ensures var plan := CollectPlan(w, s); CollectedExactly(w, s, plan[0].items, plan[0].why)
  {
    var own := Collectable(w, s.received, w.ownItems);
    var plan := CollectPlan(w, s);
    assert plan[0].why == CollectedOrigins(own);
    CollectableDiffer(w, s.received, w.ownItems);
    forall name
      ensures multiset(CollectedOrigins(own))[Collected(name)] ==
              if exists x :: Outstanding(w, s, x) && x.name == name then 1 else 0
    {
      CollectedOnce(own, name);
      OutstandingNamed(w, s, own, name);
    }
    forall k | 0 <= k < |own|
      ensures CollectedFor(w, s, plan[0].items[k], plan[0].why[k])
    {
      CollectedForOne(w, s, own, k);
    }
  }

  lemma CollectStep(w: World, s: State)
    requires ValidWorld(w)
    ensures var t, plan := Step(w, s, Deliver(Collect)), CollectPlan(w, s);
            var entries, why := plan[0].items, plan[0].why;
            && t.log == s.log + entries && t.origins == s.origins + why
            && t.toClient == s.toClient + [ReceivedItems(if entries == [] then -1 else |s.log|, entries)]
  {
    CollectEffect(w, s);
  }

  /** From s to t, these entries were logged and reported. */
  ghost predicate LoggedAndTold(s: State, t: State, entries: seq<NetworkItem>, why: seq<Origin>) {
    && t.log == s.log + entries && t.origins == s.origins + why
    && t.toClient == s.toClient + [ReceivedItems(if entries == [] then -1 else |s.log|, entries)]
  }

  /** `!collect` logs and reports exactly one entry for each of our items that lies in
      another world and has not been received, and no other. */
  lemma CollectLogsOutstanding(w: World, s: State)
    requires ValidWorld(w)
    ensures exists entries, why :: CollectedExactly(w, s, entries, why)
              && LoggedAndTold(s, Step(w, s, Deliver(Collect)), entries, why)
  {
    var entries, why := CollectPlan(w, s)[0].items, CollectPlan(w, s)[0].why;
    CollectPlanIsExact(w, s);
    CollectStep(w, s);
    assert LoggedAndTold(s, Step(w, s, Deliver(Collect)), entries, why);
  }

  lemma OutstandingNamed(w: World, s: State, own: seq<OwnItem>, name: string)
    requires own == Collectable(w, s.received, w.ownItems)
    ensures (exists x :: Outstanding(w, s, x) && x.name == name) <==>
            exists i :: 0 <= i < |own| && own[i].name == name
  {
    if x :| Outstanding(w, s, x) && x.name == name {
      CollectableIff(w, s.received, w.ownItems, x);
    }
    if i :| 0 <= i < |own| && own[i].name == name {
      assert own[i] in own;
      CollectableIff(w, s.received, w.ownItems, own[i]);
    }
  }

  /** An item whose receipt is recorded is never collected. */
  lemma ReceivedIsNotCollected(w: World, s: State, name: string)
    requires ValidWorld(w) && Item("MultiWorld-Item", name) in s.received
    ensures Entries.Count(Step(w, s, Deliver(Collect)), Collected(name)) == Entries.Count(s, Collected(name))
  {
    CollectLogsOutstanding(w, s);
    var entries, why :| CollectedExactly(w, s, entries, why)
                        && LoggedAndTold(s, Step(w, s, Deliver(Collect)), entries, why);
    CountAppend(s.origins, why, Collected(name));
  }

  /* Receiving */

  lemma OwnFound(w: World, x: OwnItem)
    requires ValidWorld(w) && x in w.ownItems
    ensures FindOwn(w.ownItems, x.name) == Some(x)
  {
  }

  /** The entry of an item received from player `from`, -1 standing for nobody we know:
      an item of ours gets the place where it is stored, any other none. */
  ghost predicate ReceivedAs(w: World, content: string, from: int, e: NetworkItem)
    requires -1 <= from < |w.games|
  {
    && HasPackageID(w, content, e.item) && e.flags == 0
    && if from == -1 then e.location == -2 && e.player == 0
       else
         && e.player == from + 1
         && (forall x :: x in w.ownItems && x.name == content ==>
               HasPlaceID(w, from, x.locationName, e.location))
         && ((forall x :: x in w.ownItems ==> x.name != content) ==> e.location == 0)
  }

  lemma ReceivedEntryIs(w: World, content: string, from: int)
    requires ValidWorld(w) && -1 <= from < |w.games|
    ensures ReceivedAs(w, content, from, ReceivedEntry(w, content, from))
  {
    forall x | x in w.ownItems && x.name == content
      ensures FindOwn(w.ownItems, content) == Some(x)
    {
      OwnFound(w, x);
    }
  }

  /** A single delivery that is accepted logs exactly this entry. */
  lemma SingleReceiptLogs(w: World, s: State, content: string, from: string, fromID: int)
    requires ValidWorld(w) && 0 <= fromID < |w.games| && Item("MultiWorld-Item", content) !in s.received
    ensures var t := Step(w, s, Deliver(DataReceive(Item("MultiWorld-Item", content), from, fromID)));
            && |t.log| == |s.log| + 1 && t.log[..|s.log|] == s.log
            && ReceivedAs(w, content, fromID, t.log[|s.log|])
  {
    ReceiveEffect(w, s, Item("MultiWorld-Item", content), from, fromID);
    ReceivedEntryIs(w, content, fromID);
  }

  /** The sender of a batch: the first player of that nickname, or nobody. */
  ghost predicate Sender(w: World, from: string, id: int) {
    if from in w.nicknames then
      0 <= id < |w.nicknames| && w.nicknames[id] == from && from !in w.nicknames[..id]
    else id == -1
  }

  ghost predicate BatchLogged(w: World, items: seq<Item>, id: int, entries: seq<NetworkItem>)
    requires -1 <= id < |w.games|
  {
    |entries| == |items| && forall k :: 0 <= k < |items| ==> ReceivedAs(w, items[k].content, id, entries[k])
  }

  lemma SenderIsIndex(w: World, from: string, id: int)
    requires Sender(w, from, id)
    ensures NicknameIndex(w.nicknames, from) == id
  {
  }

  lemma BatchEntriesAre(w: World, items: seq<Item>, id: int)
    requires ValidWorld(w) && -1 <= id < |w.games|
    ensures BatchLogged(w, items, id, BatchEntries(w, items, id))
  {
    forall k | 0 <= k < |items|
      ensures ReceivedAs(w, items[k].content, id, BatchEntries(w, items, id)[k])
    {
      ReceivedEntryIs(w, items[k].content, id);
    }
  }

  /** A batch logs such an entry for every item it accepts, in the order of its items. */
  lemma BatchReceiptLogs(w: World, s: State, items: seq<Item>, from: string, id: int)
    requires ValidWorld(w) && Sender(w, from, id)
    ensures -1 <= id < |w.games|
    ensures var t, accepted := Step(w, s, Deliver(DatasReceive(items, from))), Accepted(s.received, items);
            exists entries :: BatchLogged(w, accepted, id, entries)
              && t.log == s.log + entries && t.origins == s.origins + ReceivedOrigins(accepted)
  {
    SenderIsIndex(w, from, id);
    BatchEntriesAre(w, Accepted(s.received, items), id);
    BatchEffect(w, s, items, from);
  }

  /** In a session, an item of ours that comes from the player in whose world it lies gets
      that player's slot and the made-up ID of its place, which is set. */
  lemma OwnItemResolves(session: Session, s: State, x: OwnItem, from: string)
    requires Ready(session) && x in session.world.ownItems && Item("MultiWorld-Item", x.name) !in s.received
    ensures 0 <= x.player < |session.world.games|
    ensures var w := session.world; var game := w.games[x.player];
            && game in w.locationIDs && x.locationName in w.locationIDs[game]
            && var t := Step(w, s, Deliver(DataReceive(Item("MultiWorld-Item", x.name), from, x.player)));
               && |t.log| == |s.log| + 1
               && t.log[|s.log|].player == x.player + 1
               && t.log[|s.log|].location == w.locationIDs[game][x.locationName]
               && 1 <= t.log[|s.log|].location <= session.locations
  {
    var w := session.world;
    CollectedResolves(w, session.locations, x);
    SingleReceiptLogs(w, s, x.name, from, x.player);
  }

  /* Checking */

  /** Our own item: the log gets its ID, the location and our slot. */
  lemma OwnCheckLogs(w: World, s: State, p: Placement)
    requires ValidWorld(w) && p in w.placements && p.owner == w.playerID && p.loc !in s.cleared
    ensures var t := Step(w, s, Deliver(LocationChecks([p.loc])));
            && |t.log| == |s.log| + 1 && t.log[..|s.log|] == s.log && t.cleared == s.cleared + {p.loc}
            && var e := t.log[|s.log|];
               HasPackageID(w, p.name, e.item) && e.location == p.loc && e.player == w.playerID + 1 && e.flags == 0
  {
    PlacedAtIsUnique(w, p);
    OwnCheckEffect(w, s, p.loc);
    ChecksUnfold(w, s, [p.loc]);
    assert [p.loc][1..] == [];
  }

  /** No item is placed at the location. */
  ghost predicate Unshuffled(w: World, loc: int) {
    forall p :: p in w.placements ==> p.loc != loc
  }

  lemma UnshuffledHasNone(w: World, loc: int)
    requires Unshuffled(w, loc)
    ensures PlacedAt(w, loc).None?
  {
  }

  /** An unshuffled location is logged with the first and the third number the seed has
      for it, exactly when the client asked for own items and there are three numbers. */
  lemma UnshuffledCheckLogs(w: World, s: State, loc: int)
    requires ValidWorld(w) && Unshuffled(w, loc) && loc !in s.cleared
    ensures var t := Step(w, s, Deliver(LocationChecks([loc])));
            if s.flags / 2 % 2 == 1 && loc in w.ownLocations && |w.ownLocations[loc]| >= 3 then
              && t.log == s.log + [NetworkItem(w.ownLocations[loc][0], loc, w.playerID + 1, w.ownLocations[loc][2])]
              && t.cleared == s.cleared + {loc}
            else t == s
  {
    UnshuffledHasNone(w, loc);
    ChecksUnfold(w, s, [loc]);
    assert [loc][1..] == [];
    if CheckPlan(w, s, loc) != [] { OwnCheckEffect(w, s, loc); }
  }

  /** Scouting tells the location, the owner's slot, and for our own items the ID. */
  lemma ScoutTells(w: World, items: SyntheticIds.Tables, loc: int)
    requires ValidWorld(w)
    ensures forall p :: p in w.placements && p.loc == loc ==>
              var r := Scout(w, items, loc);
              && r.Some? && r.value.location == loc && r.value.player == p.owner + 1 && r.value.flags == 0
              && (p.owner == w.playerID ==> HasPackageID(w, p.name, r.value.item))
    ensures Unshuffled(w, loc) ==>
              Scout(w, items, loc) ==
              if loc in w.ownLocations && |w.ownLocations[loc]| >= 3 then
                Some(NetworkItem(w.ownLocations[loc][0], loc, w.playerID + 1, w.ownLocations[loc][2]))
              else None
  {
    forall p | p in w.placements && p.loc == loc
      ensures PlacedAt(w, loc) == Some(p)
    {
      PlacedAtIsUnique(w, p);
    }
    if Unshuffled(w, loc) { UnshuffledHasNone(w, loc); }
  }

  /* Sending */

  /** The server put player pid's item into a location of ours, which carries the number
      loc. */
  ghost predicate PutInto(w: World, result: ServerResult, seed: SeedFile, pid: int, name: string, loc: int)
    requires ValidWorld(w)
  {
    && Reflects(w, result, seed) && InRange(pid, 32) && 0 <= pid < |result.nicknames|
    && exists i :: 0 <= i < |result.spots| && result.spots[i].item == Names.Qualified(pid, name)
                   && Names.HasNumber(result.spots[i].location, loc)
  }

  lemma PutIsPlaced(w: World, result: ServerResult, seed: SeedFile, pid: int, name: string, loc: int)
    requires ValidWorld(w) && PutInto(w, result, seed, pid, name, loc)
    ensures Placement(loc, name, pid) in w.placements
  {
    var i :| 0 <= i < |result.spots| && result.spots[i].item == Names.Qualified(pid, name)
             && Names.HasNumber(result.spots[i].location, loc);
    var p := Placement(loc, name, pid);
    Names.QualifiedRoundTrip(pid, name);
    Names.ParsedNumberIff(result.spots[i].location, loc);
    assert WorldRow(result.spots[i], |result.nicknames|) == Some(p);
    assert FromSpots(p, result.spots, |result.nicknames|);
  }

  /** The confirmation of a row takes away just that row. */
  lemma ConfirmRemoves(w: World, s: State, row: Outgoing)
    requires ValidWorld(w)
    ensures forall r :: r in Step(w, s, Deliver(DataSendConfirm(row))).unconfirmed <==> r in s.unconfirmed && r != row
  {
    ExecuteCons(s, Settle(row), []);
    assert [Settle(row)] + [] == [Settle(row)];
  }

  lemma ForeignCheckSends(w: World, s: State, p: Placement)
    requires ValidWorld(w) && p in w.placements && p.owner != w.playerID && p.loc !in s.cleared
    requires Outgoing("MultiWorld-Item", p.name, p.owner) !in s.unconfirmed
    ensures var row, t := Outgoing("MultiWorld-Item", p.name, p.owner), Step(w, s, Deliver(LocationChecks([p.loc])));
            && t.unconfirmed == s.unconfirmed + [row] && t.toServer == s.toServer + [DataSend(row)]
            && t.cleared == s.cleared + {p.loc} && t.log == s.log
  {
    PlacedAtIsUnique(w, p);
    ForeignCheckEffect(w, s, p.loc);
    ChecksUnfold(w, s, [p.loc]);
    assert [p.loc][1..] == [];
  }

  /** When that location is checked, one row with the item's name and its owner is stored
      and sent, and the confirmation of just that row takes it away again. */
  lemma CheckSendsToOwner(w: World, result: ServerResult, seed: SeedFile, s: State, pid: int, name: string, loc: int)
    requires ValidWorld(w) && PutInto(w, result, seed, pid, name, loc) && pid != w.playerID && loc !in s.cleared
    requires Outgoing("MultiWorld-Item", name, pid) !in s.unconfirmed
    ensures var row, t := Outgoing("MultiWorld-Item", name, pid), Step(w, s, Deliver(LocationChecks([loc])));
            && t.unconfirmed == s.unconfirmed + [row] && t.toServer == s.toServer + [DataSend(row)]
            && t.cleared == s.cleared + {loc} && t.log == s.log
            && row !in Step(w, t, Deliver(DataSendConfirm(row))).unconfirmed
  {
    var row, t := Outgoing("MultiWorld-Item", name, pid), Step(w, s, Deliver(LocationChecks([loc])));
    PutIsPlaced(w, result, seed, pid, name, loc);
    ForeignCheckSends(w, s, Placement(loc, name, pid));
    ConfirmRemoves(w, t, row);
  }

  lemma ReleaseStep(w: World, s: State)
    requires ValidWorld(w) && Succeeds(w, s, Release)
    ensures Step(w, s, Deliver(Release)) == Released(s, Releasable(w, s.cleared, w.placements))
  {
    ReleaseEffect(w, s);
  }

  lemma ReleasedHolds(s: State, ps: seq<Placement>, k: nat)
    requires k < |ps|
    ensures var row, t := Outgoing("MultiWorld-Item", ps[k].name, ps[k].owner), Released(s, ps);
            row in t.unconfirmed && ps[k].loc in t.cleared && DataSend(row) in t.toServer
  {
    assert Rows(ps)[k] == Row(ps[k]) && Locs(ps)[k] == ps[k].loc && DataSends(Rows(ps))[k] == DataSend(Row(ps[k]));
  }

  lemma ForeignReleaseSends(w: World, s: State, p: Placement)
    requires ValidWorld(w) && Open(w, s, p) && Succeeds(w, s, Release)
    ensures var row, t := Outgoing("MultiWorld-Item", p.name, p.owner), Step(w, s, Deliver(Release));
            && row !in s.unconfirmed && row in t.unconfirmed && p.loc in t.cleared && DataSend(row) in t.toServer
  {
    SucceedsIff(w, s, Release);
    assert Inserts(w, s, Release, p);
    ReleaseStep(w, s);
    var ps := Releasable(w, s.cleared, w.placements);
    ReleasableAt(w, s, p);
    var k :| 0 <= k < |ps| && ps[k] == p;
    ReleasedHolds(s, ps, k);
  }

  /** The same row when everything is released. */
  lemma ReleaseSendsToOwner(w: World, result: ServerResult, seed: SeedFile, s: State, pid: int, name: string, loc: int)
    requires ValidWorld(w) && PutInto(w, result, seed, pid, name, loc) && pid != w.playerID && loc !in s.cleared
    requires Succeeds(w, s, Release)
    ensures var row, t := Outgoing("MultiWorld-Item", name, pid), Step(w, s, Deliver(Release));
            && row !in s.unconfirmed && row in t.unconfirmed && loc in t.cleared && DataSend(row) in t.toServer
            && row !in Step(w, t, Deliver(DataSendConfirm(row))).unconfirmed
  {
    PutIsPlaced(w, result, seed, pid, name, loc);
    ForeignReleaseSends(w, s, Placement(loc, name, pid));
    ConfirmRemoves(w, Step(w, s, Deliver(Release)), Outgoing("MultiWorld-Item", name, pid));
  }

  /* What the client is told */

  lemma ReceiptTells(w: World, s: State, content: string, from: string, fromID: int)
    requires ValidWorld(w) && 0 <= fromID < |w.games| && Item("MultiWorld-Item", content) !in s.received
    ensures var t := Step(w, s, Deliver(DataReceive(Item("MultiWorld-Item", content), from, fromID)));
            var entry := ReceivedEntry(w, content, fromID);
            && t.log == s.log + [entry]
            && t.toClient == s.toClient + if s.flags % 2 == 1 then [ReceivedItems(|s.log|, [entry])] else []
  {
    ReceiveEffect(w, s, Item("MultiWorld-Item", content), from, fromID);
  }

  lemma OwnCheckTells(w: World, s: State, p: Placement)
    requires ValidWorld(w) && p in w.placements && p.owner == w.playerID && p.loc !in s.cleared
    ensures var t, entry := Step(w, s, Deliver(LocationChecks([p.loc]))), CheckedEntry(w, p.loc);
            && entry.Some? && t.log == s.log + [entry.value]
            && t.toClient == s.toClient + if s.flags / 2 % 2 == 1 then [ReceivedItems(|s.log|, [entry.value])] else []
  {
    PlacedAtIsUnique(w, p);
    OwnCheckEffect(w, s, p.loc);
    ChecksUnfold(w, s, [p.loc]);
    assert [p.loc][1..] == [];
  }

  lemma SyncTells(w: World, s: State)
    requires ValidWorld(w)
    ensures Step(w, s, Deliver(Sync)).toClient ==
            s.toClient + if s.flags / 2 % 2 == 1 then [ReceivedItems(0, s.log)] else []
  {
    SyncEffect(s);
  }
}
