/** When the insertions of the handlers go through: exactly when no two foreign items
    in our world have the same name and owner. */
module PrimaryKeys {
  import opened Collections
  import opened Options
  import opened Exchange
  import opened Handlers
  import opened WholeRuns

  /** No two foreign items in our world have the same name and owner. */
  ghost predicate ForeignNamesUnique(w: World) {
    forall p, q :: p in w.placements && q in w.placements && p.owner != w.playerID && q.owner != w.playerID ==>
      (p.name == q.name && p.owner == q.owner ==> p == q)
  }

  predicate HandlingGiven(m: Message) {
    m.Connect? ==> m.itemsHandling.Some?
  }

  /** A message the handler gets through without an error. */
  ghost predicate Succeeds(w: World, s: State, m: Message)
    requires ValidWorld(w)
  {
    Execute(s, Plan(w, s, m)).ok
  }

  /* When a message goes through */

  /** A foreign item that is still lying in our world. */
  ghost predicate Open(w: World, s: State, p: Placement) {
    p in w.placements && p.owner != w.playerID && p.loc !in s.cleared
  }

  /** The open items whose rows handling the message would insert. */
  ghost predicate Inserts(w: World, s: State, m: Message, p: Placement) {
    Open(w, s, p) && (m.Release? || (m.LocationChecks? && p.loc in m.locations))
  }

  /** None of these rows is waiting already, and no two of them are the same. */
  ghost predicate Insertable(w: World, s: State, m: Message) {
    && (forall p :: Inserts(w, s, m, p) ==> Row(p) !in s.unconfirmed)
    && (forall p, q :: Inserts(w, s, m, p) && Inserts(w, s, m, q) && Row(p) == Row(q) ==> p == q)
  }

  lemma ReleasableAt(w: World, s: State, p: Placement)
    requires Open(w, s, p)
    ensures var ps := Releasable(w, s.cleared, w.placements); exists i :: 0 <= i < |ps| && ps[i] == p
  {
    assert p in Releasable(w, s.cleared, w.placements);
  }

  lemma ReleasedRowsDiffer(w: World, s: State)
    requires ValidWorld(w) && Insertable(w, s, Release)
    ensures NoRepeats(Rows(Releasable(w, s.cleared, w.placements)))
  {
    var ps := Releasable(w, s.cleared, w.placements);
    ReleasableAscending(w, s.cleared, w.placements);
    forall i, j | 0 <= i < j < |ps|
      ensures Rows(ps)[i] != Rows(ps)[j]
    {
      assert ps[i] in ps && ps[j] in ps && ps[i].loc < ps[j].loc;
      assert Inserts(w, s, Release, ps[i]) && Inserts(w, s, Release, ps[j]);
    }
  }

  lemma ReleasedRowsAreNew(w: World, s: State)
    requires Insertable(w, s, Release)
    ensures Disjoint(Rows(Releasable(w, s.cleared, w.placements)), s.unconfirmed)
  {
    var ps := Releasable(w, s.cleared, w.placements);
    forall r | r in Rows(ps)
      ensures r !in s.unconfirmed
    {
      var i :| 0 <= i < |ps| && Rows(ps)[i] == r;
      assert ps[i] in ps && Inserts(w, s, Release, ps[i]);
    }
  }

  lemma ReleaseGoesIf(w: World, s: State)
    requires ValidWorld(w) && Insertable(w, s, Release)
    ensures Do(s, Queue(Rows(Releasable(w, s.cleared, w.placements)))).Some?
  {
    ReleasedRowsDiffer(w, s);
    ReleasedRowsAreNew(w, s);
  }

  lemma ReleaseGoesOnlyIf(w: World, s: State)
    requires ValidWorld(w) && Do(s, Queue(Rows(Releasable(w, s.cleared, w.placements)))).Some?
    ensures Insertable(w, s, Release)
  {
    var ps := Releasable(w, s.cleared, w.placements);
    var rows := Rows(ps);
    forall p | Inserts(w, s, Release, p)
      ensures Row(p) !in s.unconfirmed
    {
      ReleasableAt(w, s, p);
      var i :| 0 <= i < |ps| && ps[i] == p;
      assert rows[i] in rows;
    }
    forall p, q | Inserts(w, s, Release, p) && Inserts(w, s, Release, q) && Row(p) == Row(q)
      ensures p == q
    {
      ReleasableAt(w, s, p);
      ReleasableAt(w, s, q);
      var i :| 0 <= i < |ps| && ps[i] == p;
      var j :| 0 <= j < |ps| && ps[j] == q;
      assert rows[i] == rows[j];
    }
  }

  /** A check that is not of an open foreign item inserts nothing. */
  lemma OtherCheckGoes(w: World, s: State, loc: int)
    requires ValidWorld(w) && (!Foreign(w, loc) || loc in s.cleared)
    ensures var o := Execute(s, CheckPlan(w, s, loc));
            o.ok && o.state.unconfirmed == s.unconfirmed && forall p :: Open(w, o.state, p) <==> Open(w, s, p)
  {
    if !Foreign(w, loc) && CheckPlan(w, s, loc) != [] {
      OwnCheckEffect(w, s, loc);
      forall p | Open(w, s, p)
        ensures p.loc != loc
      {
        PlacedAtIsUnique(w, p);
      }
    }
  }

  lemma SkipCheck(w: World, s: State, t: State, locs: seq<int>)
    requires ValidWorld(w) && locs != [] && (!Foreign(w, locs[0]) || locs[0] in s.cleared)
    requires t.unconfirmed == s.unconfirmed && forall p :: Open(w, t, p) <==> Open(w, s, p)
    ensures Insertable(w, s, LocationChecks(locs)) <==> Insertable(w, t, LocationChecks(locs[1..]))
  {
    forall p
      ensures Inserts(w, s, LocationChecks(locs), p) <==> Inserts(w, t, LocationChecks(locs[1..]), p)
    {
      if Inserts(w, s, LocationChecks(locs), p) { PlacedAtIsUnique(w, p); }
    }
  }

  /** Checking the first of a list: its row becomes one of those waiting. */
  lemma TakeCheck(w: World, s: State, t: State, locs: seq<int>)
    requires ValidWorld(w) && locs != [] && Foreign(w, locs[0]) && locs[0] !in s.cleared
    requires var row := Row(PlacedAt(w, locs[0]).value);
             row !in s.unconfirmed && t.unconfirmed == s.unconfirmed + [row] && t.cleared == s.cleared + {locs[0]}
    ensures Insertable(w, s, LocationChecks(locs)) <==> Insertable(w, t, LocationChecks(locs[1..]))
  {
    var first := PlacedAt(w, locs[0]).value;
    var m, rest := LocationChecks(locs), LocationChecks(locs[1..]);
    assert Inserts(w, s, m, first);
    forall p
      ensures Inserts(w, s, m, p) <==> p == first || Inserts(w, t, rest, p)
    {
      if Inserts(w, s, m, p) { PlacedAtIsUnique(w, p); }
    }
    TakeInsertable(w, s, t, m, rest, first);
  }

  lemma TakeInsertable(w: World, s: State, t: State, m: Message, rest: Message, first: Placement)
    requires Row(first) !in s.unconfirmed && t.unconfirmed == s.unconfirmed + [Row(first)]
    requires forall p :: Inserts(w, s, m, p) <==> p == first || Inserts(w, t, rest, p)
    requires !Inserts(w, t, rest, first)
    ensures Insertable(w, s, m) <==> Insertable(w, t, rest)
  {
    assert Inserts(w, s, m, first);
  }

  lemma {:induction false} ChecksSucceedIff(w: World, s: State, locs: seq<int>)
    requires ValidWorld(w)
    ensures Execute(s, ChecksPlan(w, s, locs)).ok <==> Insertable(w, s, LocationChecks(locs))
    decreases |locs|
  {
    if locs != [] {
      ChecksUnfold(w, s, locs);
      var o := Execute(s, CheckPlan(w, s, locs[0]));
      if Foreign(w, locs[0]) && locs[0] !in s.cleared {
        ForeignCheckEffect(w, s, locs[0]);
        if o.ok {
          TakeCheck(w, s, o.state, locs);
          ChecksSucceedIff(w, o.state, locs[1..]);
        } else {
          assert Inserts(w, s, LocationChecks(locs), PlacedAt(w, locs[0]).value);
        }
      } else {
        OtherCheckGoes(w, s, locs[0]);
        SkipCheck(w, s, o.state, locs);
        ChecksSucceedIff(w, o.state, locs[1..]);
      }
    }
  }

  lemma ReleaseGoesIff(w: World, s: State)
    requires ValidWorld(w)
    ensures Do(s, Queue(Rows(Releasable(w, s.cleared, w.placements)))).Some? <==> Insertable(w, s, Release)
  {
    if Insertable(w, s, Release) {
      ReleaseGoesIf(w, s);
    } else if Do(s, Queue(Rows(Releasable(w, s.cleared, w.placements)))).Some? {
      ReleaseGoesOnlyIf(w, s);
    }
  }

  lemma ReleaseOkIff(w: World, s: State)
    requires ValidWorld(w)
    ensures Execute(s, ReleasePlan(w, s)).ok <==> Do(s, Queue(Rows(Releasable(w, s.cleared, w.placements)))).Some?
  {
    ReleaseEffect(w, s);
  }

  lemma ReleaseSucceedsIff(w: World, s: State)
    requires ValidWorld(w)
    ensures Execute(s, ReleasePlan(w, s)).ok <==> Insertable(w, s, Release)
  {
    ReleaseOkIff(w, s);
    ReleaseGoesIff(w, s);
  }

  lemma ConnectSucceedsIff(s: State, itemsHandling: Option<int>)
    ensures Execute(s, ConnectPlan(s, itemsHandling)).ok <==> itemsHandling.Some?
  {
    if itemsHandling.Some? { ConnectEffect(s, itemsHandling.value); }
    else { ExecuteTwo(s, ToServer(Join), NilDereference); }
  }

  /** The messages that insert no row of an open item and dereference nothing. */
  lemma OthersSucceed(w: World, s: State, m: Message)
    requires ValidWorld(w) && !m.Connect? && !m.Release? && !m.LocationChecks?
    ensures Succeeds(w, s, m)
  {
    match m
    case JoinConfirm => JoinEffect(s);
    case DataReceive(item, from, fromID) =>
      if Accepts(w, s, item, fromID) { ReceiveEffect(w, s, item, from, fromID); }
    case DatasReceive(items, from) => BatchEffect(w, s, items, from);
    case DataSendConfirm(row) =>
      ExecuteCons(s, Settle(row), []);
      assert [Settle(row)] + [] == [Settle(row)];
    case Collect => CollectEffect(w, s);
    case Sync => SyncEffect(s);
  }

  /** In every state, reachable or not, a message gets through exactly when it brings
      items_handling if it is a Connect, and all rows it inserts are new and differ. */
  lemma SucceedsIff(w: World, s: State, m: Message)
    requires ValidWorld(w)
    ensures Succeeds(w, s, m) <==> HandlingGiven(m) && Insertable(w, s, m)
  {
    if m.Connect? {
      ConnectSucceedsIff(s, m.itemsHandling);
      NothingToInsert(w, s, m);
    } else if m.Release? {
      ReleaseSucceedsIff(w, s);
    } else if m.LocationChecks? {
      ChecksSucceedIff(w, s, m.locations);
    } else {
      OthersSucceed(w, s, m);
      NothingToInsert(w, s, m);
    }
  }

  lemma NothingToInsert(w: World, s: State, m: Message)
    requires !m.Release? && !m.LocationChecks?
    ensures Insertable(w, s, m)
  {
  }

  /* In runs of whole steps */

  lemma StepSucceeds(w: World, s: State, n: nat, m: Message)
    requires ValidWorld(w) && ForeignNamesUnique(w) && WholeInv(w, s, n) && HandlingGiven(m)
    ensures Succeeds(w, s, m)
  {
    assert Insertable(w, s, m);
    SucceedsIff(w, s, m);
  }

  /** Two foreign items with the same name and owner: checking both locations fails. */
  lemma RepeatedNameFails(w: World, precollected: seq<int>, p: Placement, q: Placement)
    requires ValidWorld(w) && p in w.placements && q in w.placements && p != q
    requires p.owner != w.playerID && Row(p) == Row(q)
    ensures !Succeeds(w, Run(w, Initial(precollected), [Deliver(LocationChecks([p.loc]))]), LocationChecks([q.loc]))
  {
    var s := Initial(precollected);
    var e := Deliver(LocationChecks([p.loc]));
    PlacedAtIsUnique(w, p);
    PlacedAtIsUnique(w, q);
    ForeignCheckEffect(w, s, p.loc);
    ChecksUnfold(w, s, [p.loc]);
    var t := Execute(s, CheckPlan(w, s, p.loc)).state;
    assert [p.loc][1..] == [];
    assert Step(w, s, e) == t;
    assert Run(w, s, [e]) == Run(w, t, [e][1..]) == t;
    assert q.loc != p.loc && q.loc !in t.cleared;
    ForeignCheckEffect(w, t, q.loc);
    ChecksUnfold(w, t, [q.loc]);
  }

  /** No insert violates a primary key in runs of whole steps, exactly when foreign
      item names are unique per owner. */
  lemma NoStepFailsIffNamesUnique(w: World, precollected: seq<int>)
    requires ValidWorld(w)
    ensures ForeignNamesUnique(w) <==>
            forall events, m :: WholeSteps(events) && HandlingGiven(m) ==>
              Succeeds(w, Run(w, Initial(precollected), events), m)
  {
    if ForeignNamesUnique(w) {
      forall events, m | WholeSteps(events) && HandlingGiven(m)
        ensures Succeeds(w, Run(w, Initial(precollected), events), m)
      {
        InitialWhole(w, precollected);
        RunKeepsWhole(w, Initial(precollected), |precollected|, events);
        StepSucceeds(w, Run(w, Initial(precollected), events), |precollected|, m);
      }
    } else {
      var p, q :| p in w.placements && q in w.placements && p.owner != w.playerID && q.owner != w.playerID
                  && Row(p) == Row(q) && p != q;
      RepeatedNameFails(w, precollected, p, q);
      var events := [Deliver(LocationChecks([p.loc]))];
      assert WholeSteps(events) && HandlingGiven(LocationChecks([q.loc]));
    }
  }
}
