/** Foreign items that are stuck: their row is waiting but their location is not
    cleared, so that the row would be inserted a second time. */
module Blocking {
  import opened Collections
  import opened Options
  import opened Exchange
  import opened Handlers
  import opened PrimaryKeys

  ghost predicate Stuck(w: World, s: State, p: Placement) {
    Open(w, s, p) && Row(p) in s.unconfirmed
  }

  /** Releasing, or checking any list with a stuck item's location in it, fails. */
  lemma StuckBlocks(w: World, s: State, p: Placement, m: Message)
    requires ValidWorld(w) && Stuck(w, s, p) && Inserts(w, s, m, p)
    ensures !Succeeds(w, s, m)
  {
    SucceedsIff(w, s, m);
  }

  /* Staying stuck */

  /** An action that neither clears the item's location nor takes its row away. */
  predicate Spares(a: Action, p: Placement) {
    && (a.Clear? ==> p.loc !in a.locs)
    && (a.Settle? ==> a.row != Row(p))
  }

  lemma {:induction false} SparedStaysStuck(w: World, s: State, plan: seq<Action>, p: Placement)
    requires Stuck(w, s, p) && forall a :: a in plan ==> Spares(a, p)
    ensures Stuck(w, Execute(s, plan).state, p)
    decreases |plan|
  {
    if plan != [] && Do(s, plan[0]).Some? {
      assert plan[0] in plan && forall a :: a in plan[1..] ==> a in plan;
      SparedStaysStuck(w, Do(s, plan[0]).value, plan[1..], p);
    }
  }

  /** A plan that starts by inserting the row again stops there. */
  lemma SecondInsertFails(s: State, plan: seq<Action>, row: Outgoing, k: nat)
    requires plan != [] && plan[0].Queue? && row in plan[0].rows && row in s.unconfirmed && k <= |plan|
    ensures Execute(s, plan[..k]).state == s
  {
    if k > 0 { assert plan[..k][0] == plan[0]; }
  }

  lemma CheckKeepsStuck(w: World, s: State, loc: int, k: nat, p: Placement)
    requires ValidWorld(w) && Stuck(w, s, p) && k <= |CheckPlan(w, s, loc)|
    ensures Stuck(w, Execute(s, CheckPlan(w, s, loc)[..k]).state, p)
  {
    var plan := CheckPlan(w, s, loc);
    if loc == p.loc {
      PlacedAtIsUnique(w, p);
      assert plan[0] == Queue([Row(p)]);
      SecondInsertFails(s, plan, Row(p), k);
    } else {
      assert forall a :: a in plan ==> Spares(a, p);
      assert forall a :: a in plan[..k] ==> a in plan;
      SparedStaysStuck(w, s, plan[..k], p);
    }
  }

  lemma {:induction false} ChecksKeepStuck(w: World, s: State, locs: seq<int>, k: nat, p: Placement)
    requires ValidWorld(w) && Stuck(w, s, p) && k <= |ChecksPlan(w, s, locs)|
    ensures Stuck(w, Execute(s, ChecksPlan(w, s, locs)[..k]).state, p)
    decreases |locs|
  {
    if locs != [] {
      var first := CheckPlan(w, s, locs[0]);
      var n := |first|;
      var o := Execute(s, first);
      var plan := ChecksPlan(w, s, locs);
      if k <= n {
        assert plan[..k] == first[..k];
        CheckKeepsStuck(w, s, locs[0], k, p);
      } else {
        CheckKeepsStuck(w, s, locs[0], n, p);
        assert first[..n] == first;
        var rest := ChecksPlan(w, o.state, locs[1..]);
        assert plan[..k] == first + rest[..k - n];
        ExecuteConcat(s, first, rest[..k - n]);
        ChecksKeepStuck(w, o.state, locs[1..], k - n, p);
      }
    }
  }

  lemma ReleaseKeepsStuck(w: World, s: State, k: nat, p: Placement)
    requires Stuck(w, s, p) && k <= |ReleasePlan(w, s)|
    ensures Execute(s, ReleasePlan(w, s)[..k]).state == s
  {
    var ps := Releasable(w, s.cleared, w.placements);
    ReleasableAt(w, s, p);
    var i :| 0 <= i < |ps| && ps[i] == p;
    assert Rows(ps)[i] == Row(p);
    SecondInsertFails(s, ReleasePlan(w, s), Row(p), k);
  }

  /** The event takes the row out of the table. */
  predicate Settles(e: Event, row: Outgoing) {
    !e.Reconnect? && e.m == DataSendConfirm(row) && (e.Crash? ==> e.done > 0)
  }

  lemma OtherPlansSpare(w: World, s: State, m: Message, p: Placement)
    requires ValidWorld(w) && !m.LocationChecks? && !m.Release? && m != DataSendConfirm(Row(p))
    ensures forall a :: a in Plan(w, s, m) ==> Spares(a, p)
  {
  }

  lemma PlanKeepsStuck(w: World, s: State, m: Message, k: nat, p: Placement)
    requires ValidWorld(w) && Stuck(w, s, p) && k <= |Plan(w, s, m)|
    requires m == DataSendConfirm(Row(p)) ==> k == 0
    ensures Stuck(w, Execute(s, Plan(w, s, m)[..k]).state, p)
  {
    if m.LocationChecks? {
      ChecksKeepStuck(w, s, m.locations, k, p);
    } else if m.Release? {
      ReleaseKeepsStuck(w, s, k, p);
    } else if k > 0 {
      var plan := Plan(w, s, m);
      OtherPlansSpare(w, s, m, p);
      assert forall a :: a in plan[..k] ==> a in plan;
      SparedStaysStuck(w, s, plan[..k], p);
    }
  }

  lemma StepKeepsStuck(w: World, s: State, e: Event, p: Placement)
    requires ValidWorld(w) && Stuck(w, s, p) && !Settles(e, Row(p))
    ensures Stuck(w, Step(w, s, e), p)
  {
    if !e.Reconnect? {
      var plan := Plan(w, s, e.m);
      assert plan[..|plan|] == plan;
      PlanKeepsStuck(w, s, e.m, EventCut(plan, e), p);
    }
  }

  /** A stuck item stays stuck through any deliveries, reconnects and crashes, as long as
      none of them takes in the confirmation of its row. */
  lemma {:induction false} RunKeepsStuck(w: World, s: State, events: seq<Event>, p: Placement)
    requires ValidWorld(w) && Stuck(w, s, p)
    requires forall i :: 0 <= i < |events| ==> !Settles(events[i], Row(p))
    ensures Stuck(w, Run(w, s, events), p)
    decreases |events|
  {
    if events != [] {
      StepKeepsStuck(w, s, events[0], p);
      RunKeepsStuck(w, Step(w, s, events[0]), events[1..], p);
    }
  }

  /** So every release, and every list of checks with its location, keeps failing. */
  lemma BlockedUntilConfirmed(w: World, s: State, events: seq<Event>, p: Placement, m: Message)
    requires ValidWorld(w) && Stuck(w, s, p)
    requires forall i :: 0 <= i < |events| ==> !Settles(events[i], Row(p))
    requires m.Release? || (m.LocationChecks? && p.loc in m.locations)
    ensures !Succeeds(w, Run(w, s, events), m)
  {
    RunKeepsStuck(w, s, events, p);
    StuckBlocks(w, Run(w, s, events), p, m);
  }

  /** The confirmation frees the item: its location can be checked. */
  lemma ConfirmationFrees(w: World, s: State, p: Placement)
    requires ValidWorld(w) && Stuck(w, s, p)
    ensures var t := Step(w, s, Deliver(DataSendConfirm(Row(p))));
            Open(w, t, p) && !Stuck(w, t, p) && Succeeds(w, t, LocationChecks([p.loc]))
  {
    var row := Row(p);
    var t := Step(w, s, Deliver(DataSendConfirm(row)));
    ExecuteCons(s, Settle(row), []);
    assert [Settle(row)] == [Settle(row)] + [];
    PlacedAtIsUnique(w, p);
    forall q | Inserts(w, t, LocationChecks([p.loc]), q)
      ensures q == p
    {
      PlacedAtIsUnique(w, q);
    }
    SucceedsIff(w, t, LocationChecks([p.loc]));
  }

  /* Entering the table a second time */

  /** The event puts the item's row into the table. */
  ghost predicate Enters(w: World, s: State, e: Event, p: Placement)
    requires ValidWorld(w)
  {
    Row(p) !in s.unconfirmed && Row(p) in Step(w, s, e).unconfirmed
  }

  /** The plan inserts no such row. */
  ghost predicate InsertsNot(plan: seq<Action>, row: Outgoing) {
    forall a :: a in plan && a.Queue? ==> row !in a.rows
  }

  lemma {:induction false} NotInserted(s: State, plan: seq<Action>, row: Outgoing)
    requires InsertsNot(plan, row) && row !in s.unconfirmed
    ensures row !in Execute(s, plan).state.unconfirmed
    decreases |plan|
  {
    if plan != [] && Do(s, plan[0]).Some? {
      assert plan[0] in plan && forall a :: a in plan[1..] ==> a in plan;
      NotInserted(Do(s, plan[0]).value, plan[1..], row);
    }
  }

  lemma {:induction false} ClosedIsNotChecked(w: World, s: State, locs: seq<int>, p: Placement)
    requires ValidWorld(w) && ForeignNamesUnique(w) && p in w.placements && p.owner != w.playerID
    requires p.loc in s.cleared
    ensures InsertsNot(ChecksPlan(w, s, locs), Row(p))
    decreases |locs|
  {
    if locs != [] {
      var first := CheckPlan(w, s, locs[0]);
      assert InsertsNot(first, Row(p)) by {
        if Foreign(w, locs[0]) && locs[0] !in s.cleared {
          assert first[0] == Queue([Row(PlacedAt(w, locs[0]).value)]);
          assert forall a :: a in first && a.Queue? ==> a == first[0];
        }
      }
      var o := Execute(s, first);
      ClearedStays(s, first, p.loc);
      if o.ok { ClosedIsNotChecked(w, o.state, locs[1..], p); }
    }
  }

  lemma ClosedIsNotReleased(w: World, s: State, p: Placement)
    requires ForeignNamesUnique(w) && p in w.placements && p.owner != w.playerID && p.loc in s.cleared
    ensures InsertsNot(ReleasePlan(w, s), Row(p))
  {
    var plan := ReleasePlan(w, s);
    var ps := Releasable(w, s.cleared, w.placements);
    assert forall a :: a in plan && a.Queue? ==> a.rows == Rows(ps);
    forall i | 0 <= i < |ps|
      ensures Rows(ps)[i] != Row(p)
    {
      assert ps[i] in ps;
    }
  }

  lemma ClosedIsNotInserted(w: World, s: State, m: Message, p: Placement)
    requires ValidWorld(w) && ForeignNamesUnique(w) && p in w.placements && p.owner != w.playerID
    requires p.loc in s.cleared
    ensures InsertsNot(Plan(w, s, m), Row(p))
  {
    if m.LocationChecks? { ClosedIsNotChecked(w, s, m.locations, p); }
    else if m.Release? { ClosedIsNotReleased(w, s, p); }
  }

  lemma StepRows(w: World, s: State, e: Event)
    requires ValidWorld(w) && !e.Reconnect?
    ensures var t, u := Step(w, s, e), Execute(s, Part(w, s, e)).state;
            t.unconfirmed == u.unconfirmed && t.cleared == u.cleared
  {
    var plan := Plan(w, s, e.m);
    assert plan[..|plan|] == plan;
  }

  /** Only open items enter. */
  lemma OnlyOpenEnters(w: World, s: State, e: Event, p: Placement)
    requires ValidWorld(w) && ForeignNamesUnique(w) && p in w.placements && p.owner != w.playerID
    requires Enters(w, s, e, p)
    ensures Open(w, s, p)
  {
    if p.loc in s.cleared && !e.Reconnect? {
      ClosedIsNotInserted(w, s, e.m, p);
      StepRows(w, s, e);
      NotInserted(s, Part(w, s, e), Row(p));
    }
  }

  lemma {:induction false} ClearedForGood(w: World, s: State, events: seq<Event>, loc: int)
    requires ValidWorld(w) && loc in s.cleared
    ensures loc in Run(w, s, events).cleared
    decreases |events|
  {
    if events != [] {
      var e := events[0];
      if !e.Reconnect? {
        StepRows(w, s, e);
        ClearedStays(s, Part(w, s, e), loc);
      }
      ClearedForGood(w, Step(w, s, e), events[1..], loc);
    }
  }

  /** From a stuck state to one in which the row is not waiting: somewhere in between the
      row was confirmed while the item was still stuck. */
  lemma {:induction false} FreedByConfirmation(w: World, s: State, events: seq<Event>, p: Placement)
    requires ValidWorld(w) && Stuck(w, s, p) && Row(p) !in Run(w, s, events).unconfirmed
    ensures exists k :: 0 <= k < |events| && ConfirmedWhileStuck(w, s, events, p, k)
    decreases |events|
  {
    if events != [] {
      assert events[..0] == [];
      if Settles(events[0], Row(p)) {
        assert ConfirmedWhileStuck(w, s, events, p, 0);
      } else {
        var t, rest := Step(w, s, events[0]), events[1..];
        StepKeepsStuck(w, s, events[0], p);
        FreedByConfirmation(w, t, rest, p);
        var k :| 0 <= k < |rest| && ConfirmedWhileStuck(w, t, rest, p, k);
        assert events[..k + 1][1..] == rest[..k];
        assert ConfirmedWhileStuck(w, s, events, p, k + 1);
      }
    }
  }

  ghost predicate ConfirmedWhileStuck(w: World, s: State, events: seq<Event>, p: Placement, k: nat)
    requires ValidWorld(w) && k < |events|
  {
    Stuck(w, Run(w, s, events[..k]), p) && Settles(events[k], Row(p))
  }

  /** With unique names a foreign item enters the table once, whatever is checked, released
      and confirmed and wherever the process dies, unless its row is confirmed while its
      location is not cleared: if it enters in e and again in d, with the events between
      them, one of those was such a confirmation. */
  lemma SecondEntryNeedsConfirmation(w: World, s: State, e: Event, events: seq<Event>, d: Event, p: Placement)
    requires ValidWorld(w) && ForeignNamesUnique(w) && p in w.placements && p.owner != w.playerID
    requires Enters(w, s, e, p) && Enters(w, Run(w, Step(w, s, e), events), d, p)
    ensures exists k :: 0 <= k < |events| && ConfirmedWhileStuck(w, Step(w, s, e), events, p, k)
  {
    var t := Step(w, s, e);
    OnlyOpenEnters(w, Run(w, t, events), d, p);
    if p.loc in t.cleared { ClearedForGood(w, t, events, p.loc); }
    FreedByConfirmation(w, t, events, p);
  }

  /** And after such a confirmation, checking the location enters and sends it again. */
  lemma ConfirmedEntersAgain(w: World, s: State, p: Placement)
    requires ValidWorld(w) && Stuck(w, s, p)
    ensures var t := Step(w, s, Deliver(DataSendConfirm(Row(p))));
            var d := Deliver(LocationChecks([p.loc]));
            Enters(w, t, d, p) && DataSend(Row(p)) in Step(w, t, d).toServer
  {
    var t := Step(w, s, Deliver(DataSendConfirm(Row(p))));
    ConfirmationFrees(w, s, p);
    PlacedAtIsUnique(w, p);
    ForeignCheckEffect(w, t, p.loc);
    ChecksUnfold(w, t, [p.loc]);
    assert [p.loc][1..] == [];
  }

  /* Getting stuck */

  lemma StuckAfterCrash(w: World, s: State, m: Message, done: nat, p: Placement)
    requires ValidWorld(w)
    ensures Stuck(w, Step(w, s, Crash(m, done)), p) <==>
            Stuck(w, Execute(s, Plan(w, s, m)[..CutAt(Plan(w, s, m), done)]).state, p)
  {
  }

  lemma ReleaseAfterQueue(w: World, s: State, p: Placement)
    requires ValidWorld(w) && Open(w, s, p) && Insertable(w, s, Release)
    ensures var ps := Releasable(w, s.cleared, w.placements);
            Do(s, Queue(Rows(ps))).Some? && Row(p) in Rows(ps) && p.loc in Locs(ps)
  {
    var ps := Releasable(w, s.cleared, w.placements);
    ReleaseGoesIf(w, s);
    ReleasableAt(w, s, p);
    var i :| 0 <= i < |ps| && ps[i] == p;
    assert Rows(ps)[i] == Row(p) && Locs(ps)[i] == p.loc;
  }

  /** Two actions and the start of what follows them. */
  lemma ExecuteTwoThen(s: State, a: Action, b: Action, rest: seq<Action>, k: nat)
    requires 2 <= k <= |[a, b] + rest| && Do(s, a).Some? && Do(Do(s, a).value, b).Some?
    ensures Execute(s, ([a, b] + rest)[..k]) == Execute(Do(Do(s, a).value, b).value, rest[..k - 2])
  {
    assert ([a, b] + rest)[..k] == [a] + ([b] + rest[..k - 2]);
    ExecuteCons(s, a, [b] + rest[..k - 2]);
    ExecuteCons(Do(s, a).value, b, rest[..k - 2]);
  }

  /** A crash in a release that would have gone through leaves its items stuck exactly
      when it falls between storing the rows and clearing the locations. */
  lemma CutReleaseSticksIff(w: World, s: State, p: Placement, done: nat)
    requires ValidWorld(w) && Open(w, s, p) && Insertable(w, s, Release)
    ensures Stuck(w, Step(w, s, Crash(Release, done)), p) <==> done == 1
  {
    var plan := ReleasePlan(w, s);
    var ps := Releasable(w, s.cleared, w.placements);
    var queue, clear := Queue(Rows(ps)), Clear(Locs(ps));
    ReleaseAfterQueue(w, s, p);
    var t := Do(s, queue).value;
    var k := CutAt(plan, done);
    StuckAfterCrash(w, s, Release, done, p);
    if done == 0 {
      assert plan[..k] == [] && Inserts(w, s, Release, p);
    } else if done == 1 {
      assert plan[..k] == [queue] + [];
      ExecuteCons(s, queue, []);
    } else {
      ReleasableDistinct(w, s.cleared);
      ReleasableUncleared(w, s.cleared);
      ExecuteTwoThen(s, queue, clear, Sends(Rows(ps)), k);
      ClearedStays(Do(t, clear).value, Sends(Rows(ps))[..k - 2], p.loc);
    }
  }

  lemma {:induction false} ClearedStays(s: State, plan: seq<Action>, loc: int)
    requires loc in s.cleared
    ensures loc in Execute(s, plan).state.cleared
    decreases |plan|
  {
    if plan != [] && Do(s, plan[0]).Some? { ClearedStays(Do(s, plan[0]).value, plan[1..], loc); }
  }

  /** Without a confirmation, rows only come. */
  lemma {:induction false} RowStays(s: State, plan: seq<Action>, row: Outgoing)
    requires row in s.unconfirmed && forall a :: a in plan ==> !a.Settle?
    ensures row in Execute(s, plan).state.unconfirmed
    decreases |plan|
  {
    if plan != [] && Do(s, plan[0]).Some? {
      assert plan[0] in plan && forall a :: a in plan[1..] ==> a in plan;
      RowStays(Do(s, plan[0]).value, plan[1..], row);
    }
  }

  lemma {:induction false} ChecksSettleNothing(w: World, s: State, locs: seq<int>)
    ensures forall a :: a in ChecksPlan(w, s, locs) ==> !a.Settle?
    decreases |locs|
  {
    if locs != [] {
      var first := CheckPlan(w, s, locs[0]);
      assert forall a :: a in first ==> !a.Settle?;
      var o := Execute(s, first);
      if o.ok { ChecksSettleNothing(w, o.state, locs[1..]); }
    }
  }

  /** The plan of a list is that of its parts, when the first part gets through. */
  lemma {:induction false} ChecksPlanConcat(w: World, s: State, a: seq<int>, b: seq<int>)
    requires Execute(s, ChecksPlan(w, s, a)).ok
    ensures ChecksPlan(w, s, a + b) == ChecksPlan(w, s, a) + ChecksPlan(w, Execute(s, ChecksPlan(w, s, a)).state, b)
    decreases |a|
  {
    if a == [] {
      assert a + b == b;
    } else {
      ChecksUnfold(w, s, a);
      var first := CheckPlan(w, s, a[0]);
      var o := Execute(s, first);
      assert (a + b)[1..] == a[1..] + b;
      ChecksPlanConcat(w, o.state, a[1..], b);
      var rest := ChecksPlan(w, o.state, a[1..]);
      Regroup(first, rest, ChecksPlan(w, Execute(o.state, rest).state, b));
    }
  }

  lemma {:induction false} OtherChecksLeaveOpen(w: World, s: State, locs: seq<int>, loc: int)
    requires loc !in s.cleared && loc !in locs
    ensures loc !in Execute(s, ChecksPlan(w, s, locs)).state.cleared
    decreases |locs|
  {
    if locs != [] {
      ChecksUnfold(w, s, locs);
      var o := Execute(s, CheckPlan(w, s, locs[0]));
      if Foreign(w, locs[0]) && locs[0] !in s.cleared { ForeignCheckEffect(w, s, locs[0]); }
      else if CheckPlan(w, s, locs[0]) != [] { OwnCheckEffect(w, s, locs[0]); }
      if o.ok { OtherChecksLeaveOpen(w, o.state, locs[1..], loc); }
    }
  }

  /** One check that would have gone through, cut after `done` actions. */
  lemma CutOneCheckSticksIff(w: World, s: State, p: Placement, rest: seq<Action>, done: nat)
    requires ValidWorld(w) && Open(w, s, p) && Row(p) !in s.unconfirmed
    requires done <= |CheckPlan(w, s, p.loc) + rest|
    ensures Stuck(w, Execute(s, (CheckPlan(w, s, p.loc) + rest)[..done]).state, p) <==> 1 <= done <= 2
  {
    PlacedAtIsUnique(w, p);
    var row := Row(p);
    var a, b, c := Queue([row]), ToServer(DataSend(row)), Clear([p.loc]);
    var plan := CheckPlan(w, s, p.loc) + rest;
    assert row in [row] && Disjoint([row], s.unconfirmed);
    var s1 := Do(s, a).value;
    var s2 := Do(s1, b).value;
    if done == 1 {
      assert plan[..1] == [a] + [];
      ExecuteCons(s, a, []);
    } else if done >= 2 {
      var more := plan[2..done];
      assert plan[..done] == [a] + ([b] + more);
      ExecuteCons(s, a, [b] + more);
      ExecuteCons(s1, b, more);
      if done >= 3 {
        assert more == [c] + plan[3..done];
        ExecuteCons(s2, c, plan[3..done]);
        ClearedStays(Do(s2, c).value, plan[3..done], p.loc);
      }
    }
  }

  /** Cut while the checks before it are carried out. */
  lemma CutEarlierDoesNotStick(w: World, s: State, before: seq<int>, p: Placement, k: nat)
    requires k <= |ChecksPlan(w, s, before)| && Execute(s, ChecksPlan(w, s, before)).ok
    requires Row(p) !in Execute(s, ChecksPlan(w, s, before)).state.unconfirmed
    ensures !Stuck(w, Execute(s, ChecksPlan(w, s, before)[..k]).state, p)
  {
    var head := ChecksPlan(w, s, before);
    assert head == head[..k] + head[k..];
    ExecuteConcat(s, head[..k], head[k..]);
    ChecksSettleNothing(w, s, before);
    assert forall a :: a in head[k..] ==> a in head;
    var u := Execute(s, head[..k]).state;
    if Row(p) in u.unconfirmed { RowStays(u, head[k..], Row(p)); }
  }

  /** Cut when its own check has begun. */
  lemma CutFirstSticksIff(w: World, s: State, p: Placement, after: seq<int>, k: nat)
    requires ValidWorld(w) && Open(w, s, p) && Row(p) !in s.unconfirmed
    requires k <= |ChecksPlan(w, s, [p.loc] + after)|
    ensures |ChecksPlan(w, s, [p.loc] + after)| >= 3
    ensures Stuck(w, Execute(s, ChecksPlan(w, s, [p.loc] + after)[..k]).state, p) <==> 1 <= k <= 2
  {
    var plan := ChecksPlan(w, s, [p.loc] + after);
    var first := CheckPlan(w, s, p.loc);
    PlacedAtIsUnique(w, p);
    FirstCheckLength(w, s, [p.loc] + after);
    assert plan == first + plan[|first|..];
    CutOneCheckSticksIff(w, s, p, plan[|first|..], k);
  }

  lemma CutConcat(s: State, head: seq<Action>, tail: seq<Action>, k: nat)
    requires Execute(s, head).ok && k <= |head + tail|
    ensures Execute(s, (head + tail)[..k]) ==
            if k <= |head| then Execute(s, head[..k]) else Execute(Execute(s, head).state, tail[..k - |head|])
  {
    PrefixOfConcat(head, tail, k);
    if k > |head| { ExecuteConcat(s, head, tail[..k - |head|]); }
  }

  lemma CutListSticksIff(w: World, s: State, locs: seq<int>, before: seq<int>, p: Placement, after: seq<int>, k: nat)
    requires ValidWorld(w) && Open(w, s, p) && p.loc !in before && locs == before + ([p.loc] + after)
    requires Execute(s, ChecksPlan(w, s, before)).ok
    requires Row(p) !in Execute(s, ChecksPlan(w, s, before)).state.unconfirmed
    requires k <= |ChecksPlan(w, s, locs)|
    ensures var n, plan := |ChecksPlan(w, s, before)|, ChecksPlan(w, s, locs);
            |plan| >= n + 3 && (Stuck(w, Execute(s, plan[..k]).state, p) <==> n + 1 <= k <= n + 2)
  {
    var head := ChecksPlan(w, s, before);
    var n, t := |head|, Execute(s, head).state;
    ChecksPlanConcat(w, s, before, [p.loc] + after);
    CutConcat(s, head, ChecksPlan(w, t, [p.loc] + after), k);
    OtherChecksLeaveOpen(w, s, before, p.loc);
    CutFirstSticksIff(w, t, p, after, if k <= n then 0 else k - n);
    if k <= n { CutEarlierDoesNotStick(w, s, before, p, k); }
  }

  /** A crash in a list of checks leaves an item stuck exactly when it falls between
      storing its row and clearing its location, wherever in the list that is. */
  lemma CutChecksStickIff(w: World, s: State, locs: seq<int>, i: nat, p: Placement, done: nat)
    requires ValidWorld(w) && Open(w, s, p) && i < |locs| && locs[i] == p.loc && p.loc !in locs[..i]
    requires Execute(s, ChecksPlan(w, s, locs[..i])).ok
    requires Row(p) !in Execute(s, ChecksPlan(w, s, locs[..i])).state.unconfirmed
    ensures var n := |ChecksPlan(w, s, locs[..i])|;
            Stuck(w, Step(w, s, Crash(LocationChecks(locs), done)), p) <==> n + 1 <= done <= n + 2
  {
    var plan := ChecksPlan(w, s, locs);
    StuckAfterChecks(w, s, locs, done, p);
    CutAtSticksIff(w, s, locs, i, p, CutAt(plan, done));
    CutInWindow(plan, |ChecksPlan(w, s, locs[..i])|, done);
  }

  lemma StuckAfterChecks(w: World, s: State, locs: seq<int>, done: nat, p: Placement)
    requires ValidWorld(w)
    ensures Stuck(w, Step(w, s, Crash(LocationChecks(locs), done)), p) <==>
            Stuck(w, Execute(s, ChecksPlan(w, s, locs)[..CutAt(ChecksPlan(w, s, locs), done)]).state, p)
  {
    StuckAfterCrash(w, s, LocationChecks(locs), done, p);
  }

  lemma CutInWindow(plan: seq<Action>, n: nat, done: nat)
    requires |plan| >= n + 3
    ensures n + 1 <= CutAt(plan, done) <= n + 2 <==> n + 1 <= done <= n + 2
  {
  }

  lemma SplitAround(locs: seq<int>, i: nat)
    requires i < |locs|
    ensures locs == locs[..i] + ([locs[i]] + locs[i + 1..])
  {
  }

  lemma CutAtSticksIff(w: World, s: State, locs: seq<int>, i: nat, p: Placement, k: nat)
    requires ValidWorld(w) && Open(w, s, p) && i < |locs| && locs[i] == p.loc && p.loc !in locs[..i]
    requires Execute(s, ChecksPlan(w, s, locs[..i])).ok
    requires Row(p) !in Execute(s, ChecksPlan(w, s, locs[..i])).state.unconfirmed
    requires k <= |ChecksPlan(w, s, locs)|
    ensures var n, plan := |ChecksPlan(w, s, locs[..i])|, ChecksPlan(w, s, locs);
            |plan| >= n + 3 && (Stuck(w, Execute(s, plan[..k]).state, p) <==> n + 1 <= k <= n + 2)
  {
    SplitAround(locs, i);
    CutListSticksIff(w, s, locs, locs[..i], p, locs[i + 1..], k);
  }

  lemma PrefixOfConcat(a: seq<Action>, b: seq<Action>, k: nat)
    requires k <= |a + b|
    ensures (a + b)[..k] == if k <= |a| then a[..k] else a + b[..k - |a|]
  {
  }

  lemma FirstCheckLength(w: World, s: State, locs: seq<int>)
    requires locs != []
    ensures var first := CheckPlan(w, s, locs[0]); first <= ChecksPlan(w, s, locs)
    ensures Foreign(w, locs[0]) && locs[0] !in s.cleared ==> |CheckPlan(w, s, locs[0])| == 3
  {
  }
}
