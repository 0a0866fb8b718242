/** The item exchange between one Archipelago client and one MultiWorld server
    (cmd/isthmus/play.go, cmd/isthmus/savefile.go).

    A message handler is a sequence of actions, each of which is one committed
    database transaction or one message handed to a connection. A whole handler step
    carries out all of them; a crash carries out a prefix. */
module Exchange {
  import opened Collections
  import opened Options
  import Names

  /* The fixed part: what createSavefile stored and what the seed file holds */

  const LABEL := "MultiWorld-Item"
  const SERVER_LOCATION := -2
  const SERVER_SLOT := 0

  /** A row of mw_own_world_placements: an item lying in our world. */
  datatype Placement = Placement(loc: int, name: string, owner: int)

  /** A row of mw_own_item_placements: one of our items and where it lies. */
  datatype OwnItem = OwnItem(name: string, player: int, locationName: string)

  datatype World = World(
    playerID: int,
    nicknames: seq<string>,
    games: seq<string>,
    itemNameToID: map<string, int>,            // data package of our own game
    locationIDs: map<string, map<string, int>>,// synthetic location IDs of each game
    ownLocations: map<int, seq<int>>,          // location ID -> item ID, player, flags
    placements: seq<Placement>,                // ordered by location ID
    ownItems: seq<OwnItem>)

  /** What the schema guarantees: primary keys and references to mw_players. */
  ghost predicate ValidWorld(w: World) {
    && |w.games| == |w.nicknames|
    && (forall i, j :: 0 <= i < j < |w.placements| ==> w.placements[i].loc < w.placements[j].loc)
    && (forall i :: 0 <= i < |w.placements| ==> 0 <= w.placements[i].owner < |w.games|)
    && (forall i, j :: 0 <= i < j < |w.ownItems| ==> w.ownItems[i].name != w.ownItems[j].name)
    && (forall i :: 0 <= i < |w.ownItems| ==> 0 <= w.ownItems[i].player < |w.games|)
  }

  function Lookup<K>(m: map<K, int>, k: K): int {
    if k in m then m[k] else 0
  }

  function Find(ps: seq<Placement>, loc: int): (r: Option<Placement>)
    ensures r.Some? ==> r.value in ps && r.value.loc == loc
    ensures r.None? ==> forall p :: p in ps ==> p.loc != loc
  {
    if ps == [] then None
    else if ps[0].loc == loc then Some(ps[0])
    else Find(ps[1..], loc)
  }

  function PlacedAt(w: World, loc: int): Option<Placement> {
    Find(w.placements, loc)
  }

  /** Placements are keyed by location. */
  lemma PlacedAtIsUnique(w: World, p: Placement)
    requires ValidWorld(w) && p in w.placements
    ensures PlacedAt(w, p.loc) == Some(p)
  {
  }

  function FindOwn(items: seq<OwnItem>, name: string): (r: Option<OwnItem>)
    ensures r.Some? ==> r.value in items && r.value.name == name
    ensures r.None? ==> forall x :: x in items ==> x.name != name
  {
    if items == [] then None
    else if items[0].name == name then Some(items[0])
    else FindOwn(items[1..], name)
  }

  function ItemID(w: World, name: string): int {
    Lookup(w.itemNameToID, Names.StripDiscriminator(name))
  }

  function LocationID(w: World, player: int, locationName: string): int
    requires 0 <= player < |w.games|
  {
    var game := w.games[player];
    if game in w.locationIDs then Lookup(w.locationIDs[game], locationName) else 0
  }

  /** The item at `loc` belongs to another player. */
  predicate Foreign(w: World, loc: int) {
    PlacedAt(w, loc).Some? && PlacedAt(w, loc).value.owner != w.playerID
  }

  /* Rows and messages */

  datatype NetworkItem = NetworkItem(item: int, location: int, player: int, flags: int)

  datatype Outgoing = Outgoing(tag: string, content: string, dest: int)

  datatype Item = Item(tag: string, content: string)

  function Row(p: Placement): Outgoing {
    Outgoing(LABEL, p.name, p.owner)
  }

  /** Why a log entry exists. This is history only: the log stores network items. */
  datatype Origin =
    | Precollected
    | Received(item: Item)
    | Checked(loc: int)
    | Collected(name: string)

  datatype ClientMessage =
    | ReceivedItems(index: int, items: seq<NetworkItem>)
    | Connected(checkedLocations: set<int>)

  datatype ServerMessage =
    | Join
    | DataSend(row: Outgoing)
    | ReceiveConfirm(item: Item, from: string)
    | BatchConfirm(count: int, from: string)
    | Save

  /** The messages whose handlers touch the exchange. */
  datatype Message =
    | JoinConfirm
    | DataReceive(item: Item, from: string, fromID: int)
    | DatasReceive(items: seq<Item>, from: string)
    | DataSendConfirm(row: Outgoing)
    | Connect(itemsHandling: Option<int>)
    | Collect
    | Release
    | Sync
    | LocationChecks(locations: seq<int>)

  predicate OthersBit(flags: int) {
    flags % 2 == 1
  }

  predicate OwnBit(flags: int) {
    flags / 2 % 2 == 1
  }

  /* State */

  datatype State = State(
    // the tables
    cleared: set<int>,
    unconfirmed: seq<Outgoing>,
    received: set<Item>,
    log: seq<NetworkItem>,
    // the current pair of connections
    flags: int,
    joined: bool,
    toClient: seq<ClientMessage>,
    toServer: seq<ServerMessage>,
    // history over all connections
    origins: seq<Origin>,
    acknowledged: set<Outgoing>,
    everToClient: seq<ClientMessage>,
    everToServer: seq<ServerMessage>,
    collected: nat)

  /** A fresh savefile: only the precollected items are in the log. */
  function Initial(precollected: seq<int>): State {
    State({}, [], {}, seq(|precollected|, i requires 0 <= i < |precollected| =>
            NetworkItem(precollected[i], SERVER_LOCATION, SERVER_SLOT, 0)),
          0, false, [], [], seq(|precollected|, i => Precollected), {}, [], [], 0)
  }

  /** New connections on the same savefile. */
  function Restart(s: State): State {
    s.(flags := 0, joined := false, toClient := [], toServer := [])
  }

  /* Actions */

  datatype Action =
    | Log(items: seq<NetworkItem>, why: seq<Origin>)
    | Queue(rows: seq<Outgoing>)
    | Clear(locs: seq<int>)
    | Mark(item: Item)
    | Settle(row: Outgoing)
    | ToClient(cm: ClientMessage)
    | ToServer(sm: ServerMessage)
    | SetFlags(flags: int)
    | Joined
    | NilDereference

  function Without(rows: seq<Outgoing>, row: Outgoing): (r: seq<Outgoing>)
    ensures forall x :: x in r <==> x in rows && x != row
    ensures NoRepeats(rows) ==> NoRepeats(r)
  {
    if rows == [] then []
    else if rows[0] == row then Without(rows[1..], row)
    else
      assert NoRepeats(rows) ==> rows[0] !in rows[1..];
      [rows[0]] + Without(rows[1..], row)
  }

  function CountCollected(why: seq<Origin>): nat {
    if why == [] then 0
    else (if why[0].Collected? then 1 else 0) + CountCollected(why[1..])
  }

  /** One action; None when it violates a primary key or dereferences nil. A failed
      transaction is rolled back when the savefile is closed. */
  function Do(s: State, a: Action): Option<State> {
    match a
    case Log(items, why) =>
      Some(s.(log := s.log + items, origins := s.origins + why,
              collected := s.collected + CountCollected(why)))
    case Queue(rows) =>
      if NoRepeats(rows) && Disjoint(rows, s.unconfirmed) then
        Some(s.(unconfirmed := s.unconfirmed + rows))
      else None
    case Clear(locs) =>
      if NoRepeats(locs) && AllNew(locs, s.cleared) then
        Some(s.(cleared := s.cleared + Elements(locs)))
      else None
    case Mark(item) =>
      if item in s.received then None else Some(s.(received := s.received + {item}))
    case Settle(row) =>
      Some(s.(unconfirmed := Without(s.unconfirmed, row), acknowledged := s.acknowledged + {row}))
    case ToClient(m) =>
      Some(s.(toClient := s.toClient + [m], everToClient := s.everToClient + [m]))
    case ToServer(m) =>
      Some(s.(toServer := s.toServer + [m], everToServer := s.everToServer + [m]))
    case SetFlags(flags) => Some(s.(flags := flags))
    case Joined => Some(s.(joined := true))
    case NilDereference => None
  }

  datatype Outcome = Outcome(state: State, ok: bool)

  /** Carries out a plan up to its first failing action. */
  function Execute(s: State, plan: seq<Action>): Outcome
    decreases |plan|
  {
    if plan == [] then Outcome(s, true)
    else
      var next := Do(s, plan[0]);
      if next.None? then Outcome(s, false) else Execute(next.value, plan[1..])
  }

  /* Handlers */

  /** The index addSentItems reports: the position of the first item, or -1. */
  function LogIndex(s: State, items: seq<NetworkItem>): int {
    if items == [] then -1 else |s.log|
  }

  function ReceivedEntry(w: World, content: string, from: int): NetworkItem
    requires from < |w.games|
  {
    if from < 0 then
      NetworkItem(ItemID(w, content), SERVER_LOCATION, SERVER_SLOT, 0)
    else
      var own := FindOwn(w.ownItems, content);
      var loc := if own.Some? then LocationID(w, from, own.value.locationName) else 0;
      NetworkItem(ItemID(w, content), loc, from + 1, 0)
  }

  /** What checking a location that is not foreign puts in the log, if anything. */
  function CheckedEntry(w: World, loc: int): Option<NetworkItem> {
    var p := PlacedAt(w, loc);
    if p.Some? then
      Some(NetworkItem(ItemID(w, p.value.name), loc, w.playerID + 1, 0))
    else if loc in w.ownLocations && |w.ownLocations[loc]| >= 3 then
      Some(NetworkItem(w.ownLocations[loc][0], loc, w.playerID + 1, w.ownLocations[loc][2]))
    else
      None
  }

  function CollectedEntry(w: World, own: OwnItem): NetworkItem
    requires 0 <= own.player < |w.games|
  {
    NetworkItem(ItemID(w, own.name), LocationID(w, own.player, own.locationName), own.player + 1, 0)
  }

  predicate Accepts(w: World, s: State, item: Item, fromID: int) {
    item.tag == LABEL && 0 <= fromID < |w.games| && item !in s.received
  }

  function ReceivePlan(w: World, s: State, item: Item, from: string, fromID: int): seq<Action> {
    if !Accepts(w, s, item, fromID) then
      []
    else
      var entry := ReceivedEntry(w, item.content, fromID);
      [Log([entry], [Received(item)])]
      + (if OthersBit(s.flags) then [ToClient(ReceivedItems(|s.log|, [entry]))] else [])
      + [ToServer(ReceiveConfirm(item, from)), Mark(item), ToServer(Save)]
  }

  /** The items of a batch that are neither duplicates nor wrongly labelled, each
      counting as received for the rest of the batch. */
  function Accepted(received: set<Item>, items: seq<Item>): (r: seq<Item>)
    ensures NoRepeats(r)
    ensures forall x :: x in r <==> x in items && x.tag == LABEL && x !in received
    decreases |items|
  {
    if items == [] then []
    else if items[0].tag != LABEL || items[0] in received then
      Accepted(received, items[1..])
    else
      [items[0]] + Accepted(received + {items[0]}, items[1..])
  }

  function NicknameIndex(names: seq<string>, name: string): (r: int)
    ensures -1 <= r < |names|
    ensures r >= 0 ==> names[r] == name && name !in names[..r]
    ensures r == -1 <==> name !in names
  {
    if names == [] then -1
    else if names[0] == name then 0
    else
      var r := NicknameIndex(names[1..], name);
      assert r >= 0 ==> names[..r + 1] == [names[0]] + names[1..][..r];
      if r == -1 then -1 else r + 1
  }

  function Marks(items: seq<Item>): seq<Action> {
    seq(|items|, i requires 0 <= i < |items| => Mark(items[i]))
  }

  function ReceivedOrigins(items: seq<Item>): seq<Origin> {
    seq(|items|, i requires 0 <= i < |items| => Received(items[i]))
  }

  function BatchEntries(w: World, items: seq<Item>, from: int): seq<NetworkItem>
    requires from < |w.games|
  {
    seq(|items|, i requires 0 <= i < |items| => ReceivedEntry(w, items[i].content, from))
  }

  function BatchPlan(w: World, s: State, items: seq<Item>, from: string): seq<Action>
    requires |w.games| == |w.nicknames|
  {
    var accepted := Accepted(s.received, items);
    var entries := BatchEntries(w, accepted, NicknameIndex(w.nicknames, from));
    Marks(accepted)
    + ([Log(entries, ReceivedOrigins(accepted))]
       + (if OthersBit(s.flags) then [ToClient(ReceivedItems(LogIndex(s, entries), entries))] else [])
       + [ToServer(BatchConfirm(|items|, from)), ToServer(Save)])
  }

  function Sends(rows: seq<Outgoing>): seq<Action> {
    seq(|rows|, i requires 0 <= i < |rows| => ToServer(DataSend(rows[i])))
  }

  function ConnectPlan(s: State, itemsHandling: Option<int>): seq<Action> {
    if itemsHandling.None? then
      [ToServer(Join), NilDereference]
    else
      [ToServer(Join), SetFlags(itemsHandling.value), ToClient(Connected(s.cleared)),
       ToClient(ReceivedItems(0, s.log))]
  }

  /** Our items in other worlds that no receipt has been recorded for. */
  function Collectable(w: World, received: set<Item>, items: seq<OwnItem>): (r: seq<OwnItem>)
    ensures forall x :: x in r ==> x in items
  {
    if items == [] then []
    else
      var rest := Collectable(w, received, items[1..]);
      if items[0].player != w.playerID && Item(LABEL, items[0].name) !in received then
        [items[0]] + rest
      else rest
  }

  function CollectPlan(w: World, s: State): seq<Action>
    requires ValidWorld(w)
  {
    var own := Collectable(w, s.received, w.ownItems);
    var entries := seq(|own|, i requires 0 <= i < |own| =>
      assert own[i] in w.ownItems; CollectedEntry(w, own[i]));
    [Log(entries, seq(|own|, i requires 0 <= i < |own| => Collected(own[i].name))),
     ToClient(ReceivedItems(LogIndex(s, entries), entries))]
  }

  function Releasable(w: World, cleared: set<int>, ps: seq<Placement>): (r: seq<Placement>)
    ensures forall p :: p in r <==> p in ps && p.owner != w.playerID && p.loc !in cleared
  {
    if ps == [] then []
    else
      var rest := Releasable(w, cleared, ps[1..]);
      if ps[0].owner != w.playerID && ps[0].loc !in cleared then [ps[0]] + rest else rest
  }

  function Rows(ps: seq<Placement>): seq<Outgoing> {
    seq(|ps|, i requires 0 <= i < |ps| => Row(ps[i]))
  }

  function Locs(ps: seq<Placement>): seq<int> {
    seq(|ps|, i requires 0 <= i < |ps| => ps[i].loc)
  }

  function ReleasePlan(w: World, s: State): seq<Action> {
    var ps := Releasable(w, s.cleared, w.placements);
    [Queue(Rows(ps)), Clear(Locs(ps))] + Sends(Rows(ps))
  }

  function SyncPlan(s: State): seq<Action> {
    if OwnBit(s.flags) then [ToClient(ReceivedItems(0, s.log))] else []
  }

  function CheckPlan(w: World, s: State, loc: int): seq<Action> {
    if loc in s.cleared then
      []
    else if Foreign(w, loc) then
      var row := Row(PlacedAt(w, loc).value);
      [Queue([row]), ToServer(DataSend(row)), Clear([loc])]
    else
      var entry := CheckedEntry(w, loc);
      if PlacedAt(w, loc).None? && (!OwnBit(s.flags) || entry.None?) then
        []
      else
        [Log([entry.value], [Checked(loc)])]
        + (if OwnBit(s.flags) then [ToClient(ReceivedItems(|s.log|, [entry.value]))] else [])
        + [Clear([loc])]
  }

  function ChecksPlan(w: World, s: State, locs: seq<int>): seq<Action>
    decreases |locs|
  {
    if locs == [] then []
    else
      var first := CheckPlan(w, s, locs[0]);
      var o := Execute(s, first);
      if o.ok then first + ChecksPlan(w, o.state, locs[1..]) else first
  }

  function Plan(w: World, s: State, m: Message): seq<Action>
    requires ValidWorld(w)
  {
    match m
    case JoinConfirm => Sends(s.unconfirmed) + [Joined]
    case DataReceive(item, from, fromID) => ReceivePlan(w, s, item, from, fromID)
    case DatasReceive(items, from) => BatchPlan(w, s, items, from)
    case DataSendConfirm(row) => [Settle(row)]
    case Connect(itemsHandling) => ConnectPlan(s, itemsHandling)
    case Collect => CollectPlan(w, s)
    case Release => ReleasePlan(w, s)
    case Sync => SyncPlan(s)
    case LocationChecks(locs) => ChecksPlan(w, s, locs)
  }

  /* Runs */

  datatype Event =
    | Deliver(m: Message)
    | Reconnect
    | Crash(m: Message, done: nat)  // dies after `done` actions of the handler

  /** How many actions of a plan are carried out when the process dies after `done`. */
  function CutAt(plan: seq<Action>, done: nat): (k: nat)
    ensures k <= |plan|
  {
    if done < |plan| then done else |plan|
  }

  function EventCut(plan: seq<Action>, e: Event): (k: nat)
    ensures k <= |plan|
  {
    if e.Crash? then CutAt(plan, e.done) else |plan|
  }

  function Step(w: World, s: State, e: Event): State
    requires ValidWorld(w)
  {
    match e
    case Deliver(m) =>
      var o := Execute(s, Plan(w, s, m));
      if o.ok then o.state else Restart(o.state)
    case Reconnect => Restart(s)
    case Crash(m, done) =>
      var plan := Plan(w, s, m);
      Restart(Execute(s, plan[..CutAt(plan, done)]).state)
  }

  /** The actions an event is about to carry out. */
  function Part(w: World, s: State, e: Event): (part: seq<Action>)
    requires ValidWorld(w) && !e.Reconnect?
    ensures forall a :: a in part ==> a in Plan(w, s, e.m)
  {
    var plan := Plan(w, s, e.m);
    plan[..EventCut(plan, e)]
  }

  function Run(w: World, s: State, events: seq<Event>): State
    requires ValidWorld(w)
    decreases |events|
  {
    if events == [] then s else Run(w, Step(w, s, events[0]), events[1..])
  }

  predicate WholeSteps(events: seq<Event>) {
    forall i :: 0 <= i < |events| ==> !events[i].Crash?
  }

  /* Executing plans piece by piece */

  lemma ExecuteCons(s: State, a: Action, rest: seq<Action>)
    ensures Execute(s, [a] + rest) ==
            if Do(s, a).None? then Outcome(s, false) else Execute(Do(s, a).value, rest)
  {
    assert ([a] + rest)[1..] == rest;
  }

  lemma {:induction false} ExecuteConcat(s: State, a: seq<Action>, b: seq<Action>)
    ensures Execute(s, a + b) ==
            if Execute(s, a).ok then Execute(Execute(s, a).state, b) else Execute(s, a)
    decreases |a|
  {
    if a == [] {
      assert a + b == b;
    } else {
      assert (a + b)[1..] == a[1..] + b;
      var next := Do(s, a[0]);
      if next.Some? { ExecuteConcat(next.value, a[1..], b); }
    }
  }

  /** A report is at most one message to the client. */
  lemma ExecuteOptional(s: State, report: seq<Action>)
    requires |report| <= 1 && forall i :: 0 <= i < |report| ==> report[i].ToClient?
    ensures Execute(s, report) ==
            Outcome(if report == [] then s else Do(s, report[0]).value, true)
  {
  }
}
