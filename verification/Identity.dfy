/** An item keeps its identity from the seed file, through the names handed to the
    server and the tables of the savefile, to the log. */
module Identity {
  import opened Options
  import opened Text
  import opened Exchange
  import opened Accounting
  import Names
  import Placements
  import Setup

  /** What the server is given: the conversion of a seed, and our data package. */
  ghost predicate Converted(w: World, pkg: Placements.DataPackage, locations: map<int, seq<int>>,
                            kept: seq<int>, ps: seq<Placements.Placement>) {
    Placements.Faithful(pkg, locations, kept, ps) && w.itemNameToID == pkg.itemNameToID
  }

  /** The name of the item a log entry is about, when it has one. */
  function OriginName(w: World, why: Origin): Option<string> {
    match why
    case Precollected => None
    case Received(item) => Some(item.content)
    case Checked(loc) => if PlacedAt(w, loc).Some? then Some(PlacedAt(w, loc).value.name) else None
    case Collected(name) => Some(name)
  }

  lemma NameLeadsToID(w: World, pkg: Placements.DataPackage, locations: map<int, seq<int>>, kept: seq<int>,
                      ps: seq<Placements.Placement>, i: nat)
    requires Converted(w, pkg, locations, kept, ps) && i < |ps|
    ensures Placements.Filled(locations, kept[i]) && ItemID(w, ps[i].item) == locations[kept[i]][0]
  {
    assert Placements.FaithfulAt(pkg, locations, kept[i], ps[i], i);
  }

  lemma ExplainedByName(w: World, e: NetworkItem, why: Origin)
    requires ValidWorld(w) && Explains(w, e, why) && OriginName(w, why).Some?
    ensures e.item == ItemID(w, OriginName(w, why).value)
  {
  }

  /** In every run, with crashes anywhere, each log entry about the i-th converted item
      (received alone or in a batch, checked in our own world, or collected) carries
      the ID that the seed has at the location the item came from. */
  lemma LoggedItemsHaveSeedIDs(w: World, pkg: Placements.DataPackage, locations: map<int, seq<int>>, kept: seq<int>,
                               ps: seq<Placements.Placement>, precollected: seq<int>, events: seq<Event>,
                               k: nat, i: nat)
    requires ValidWorld(w) && Converted(w, pkg, locations, kept, ps) && i < |ps|
    requires k < |Run(w, Initial(precollected), events).origins|
    requires OriginName(w, Run(w, Initial(precollected), events).origins[k]) == Some(ps[i].item)
    ensures var s := Run(w, Initial(precollected), events);
            k < |s.log| && Placements.Filled(locations, kept[i]) && s.log[k].item == locations[kept[i]][0]
  {
    InitialInv(w, precollected);
    RunKeepsInv(w, Initial(precollected), events);
    var s := Run(w, Initial(precollected), events);
    ExplainedByName(w, s.log[k], s.origins[k]);
    NameLeadsToID(w, pkg, locations, kept, ps, i);
  }

  /** The server puts an item of any player into the location of the i-th conversion:
      the savefile has a row for it exactly when the player is known, and that row holds
      the location's ID, the player and the name, whatever the name looks like. */
  lemma SpotIsStored(pkg: Placements.DataPackage, locations: map<int, seq<int>>, kept: seq<int>,
                     ps: seq<Placements.Placement>, i: nat, pid: int, name: string, players: nat)
    requires Placements.Faithful(pkg, locations, kept, ps) && i < |ps|
    ensures Setup.WorldRow(Setup.Spot(Names.Qualified(pid, name), ps[i].location), players) ==
            if InRange(pid, 32) && 0 <= pid < players then Some(Placement(kept[i], name, pid)) else None
  {
    assert Placements.FaithfulAt(pkg, locations, kept[i], ps[i], i);
    Names.QualifiedRoundTrip(pid, name);
  }

  /** The same for the place of one of our items. */
  lemma OwnItemIsStored(item: string, pid: int, place: string, players: nat)
    ensures Setup.ItemRow(item, Names.Qualified(pid, place), players) ==
            if InRange(pid, 32) && 0 <= pid < players then Some(OwnItem(item, pid, place)) else None
  {
    Names.QualifiedRoundTrip(pid, place);
  }
}
