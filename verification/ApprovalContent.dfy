/** When what the calendar holds for an executed action is what its row says was approved. */
module ApprovalContent {
  import opened Prelude
  import opened Approvals
  import opened ApprovalSafety

  ghost predicate Injective(cfg: Config) {
    forall a, b :: cfg.hash(a) == cfg.hash(b) ==> a == b
  }

  /** Under these arguments the owner's calendar already holds the action's event with other ones. */
  ghost predicate Clashes(cfg: Config, events: seq<Event>, id: ActionId, args: CalendarArgs) {
    exists i :: 0 <= i < |events| && events[i].owner == args.owner && events[i].eventId == cfg.hash(id) && events[i].args != args
  }

  ghost predicate Clash(cfg: Config, s: State, id: ActionId) {
    && id in s.rows && ParseCall(cfg, s.rows[id].call).Some?
    && Clashes(cfg, s.events, id, ParseCall(cfg, s.rows[id].call).value)
  }

  /** A refinement was applied to the action. */
  predicate Refined(s: State, t: State, id: ActionId) {
    id in s.rows && id in t.rows && t.rows[id].call != s.rows[id].call
  }

  /** The last refinement applied chose arguments that clash with the calendar as it was then; `now` is the answer so far. */
  ghost predicate RefinedIntoClash(cfg: Config, s: State, labels: seq<Label>, id: ActionId, now: bool)
    decreases |labels|
  {
    if labels == [] then now
    else
      var t := Next(cfg, s, labels[0]);
      RefinedIntoClash(cfg, t, labels[1..], id, if Refined(s, t, id) then Clash(cfg, t, id) else now)
  }

  /** The event of an action is posted by that action only. */
  ghost predicate OwnPosters(cfg: Config, s: State) {
    forall i, id :: 0 <= i < |s.events| && s.events[i].eventId == cfg.hash(id) ==> s.events[i].poster == id && id in s.rows
  }

  lemma PostersAreOwn(cfg: Config, s: State)
    requires Injective(cfg) && Safe(cfg, s)
    ensures OwnPosters(cfg, s)
  {
    forall i, id | 0 <= i < |s.events| && s.events[i].eventId == cfg.hash(id) ensures s.events[i].poster == id && id in s.rows {
      assert Accounted(cfg, s, s.events[i]);
    }
  }

  /** Only a refinement changes a call, and a step adds at most one event, of the executing action's own arguments. */
  lemma WhatChanges(cfg: Config, s: State, l: Label)
    requires l.Commit? && l.o in s.ops ==> OpOk(cfg, s.rows, s.events, s.ops[l.o])
    ensures var t := Next(cfg, s, l);
      && (forall id :: id in s.rows ==> id in t.rows && (l.Refine? || t.rows[id].call == s.rows[id].call))
      && (l.Refine? ==> t.events == s.events)
      && (t.events == s.events || (l.Execute? && l.o in s.ops && s.ops[l.o].Settling? && s.ops[l.o].pc.AtExecute?
            && var op := s.ops[l.o];
               t.events == s.events + [Event(op.pc.args.owner, cfg.hash(op.id), op.pc.args, op.id)]))
      && (l.Refine? || l.Park? || t.rows.Keys == s.rows.Keys)
  {
    hide Locked, LaneFree, Unstamped, RefinedCall, OnCalendar;
  }

  lemma ClashGrows(cfg: Config, events: seq<Event>, e: Event, id: ActionId, args: CalendarArgs)
    requires e.eventId == cfg.hash(id) ==> e.args == args
    ensures Clashes(cfg, events + [e], id, args) <==> Clashes(cfg, events, id, args)
  {
    var after := events + [e];
    if i :| 0 <= i < |events| && events[i].owner == args.owner && events[i].eventId == cfg.hash(id) && events[i].args != args {
      assert after[i] == events[i];
    }
    if i :| 0 <= i < |after| && after[i].owner == args.owner && after[i].eventId == cfg.hash(id) && after[i].args != args {
      assert i < |events|;
    }
  }

  /** A step other than a refinement neither makes nor mends a clash. */
  lemma ClashStays(cfg: Config, s: State, l: Label, id: ActionId)
    requires Injective(cfg) && Safe(cfg, s) && FreshOps(s)
    requires id in s.rows && !Refined(s, Next(cfg, s, l), id)
    ensures Clash(cfg, Next(cfg, s, l), id) <==> Clash(cfg, s, id)
  {
    var t := Next(cfg, s, l);
    if (l.Commit? || l.Execute?) && l.o in s.ops { OpIsOk(cfg, s, l.o); }
    WhatChanges(cfg, s, l);
    hide Next, Safe;
    if t.events != s.events && ParseCall(cfg, s.rows[id].call).Some? {
      var op := s.ops[l.o];
      assert FreshOp(s.rows, s.shown, op);
      ClashGrows(cfg, s.events, Event(op.pc.args.owner, cfg.hash(op.id), op.pc.args, op.id), id, ParseCall(cfg, s.rows[id].call).value);
    }
  }

  /** A freshly parked action has nothing on the calendar. */
  lemma ParkedHasNoClash(cfg: Config, s: State, l: Label, id: ActionId)
    requires Injective(cfg) && Safe(cfg, s) && id !in s.rows
    ensures !Clash(cfg, Next(cfg, s, l), id)
  {
    var t := Next(cfg, s, l);
    PostersAreOwn(cfg, s);
    if l.Commit? && l.o in s.ops { OpIsOk(cfg, s, l.o); }
    WhatChanges(cfg, s, l);
    hide Safe, OpsOk;
    assert t.events == s.events || id !in t.rows;
  }

  // ----- A clash needs a lost answer -----

  ghost predicate ClashLost(cfg: Config, s: State) {
    forall id :: Clash(cfg, s, id) ==> id in s.orphans
  }

  /** An action that can be refined and has an event on a calendar lost an answer before. */
  lemma RefinableEventIsLost(cfg: Config, s: State, id: ActionId, i: nat)
    requires Injective(cfg) && Safe(cfg, s) && id in s.rows && s.rows[id].status.Pending? && !Locked(s, id)
    requires i < |s.events| && s.events[i].eventId == cfg.hash(id)
    ensures id in s.orphans
  {
    PostersAreOwn(cfg, s);
    assert Accounted(cfg, s, s.events[i]);
    if Uncommitted(s, id) {
      var o :| o in s.ops && Posted(s.ops[o]) && s.ops[o].id == id;
      OpIsOk(cfg, s, o);
      assert Holds(s.ops[o], id);
    }
  }

  lemma OrphansGrow(cfg: Config, s: State, l: Label)
    ensures s.orphans <= Next(cfg, s, l).orphans
  {
    hide Locked, LaneFree, Unstamped, RefinedCall, OnCalendar, Create;
  }

  lemma RefineNeedsPending(cfg: Config, s: State, l: Label, id: ActionId)
    requires l.Commit? && l.o in s.ops ==> OpOk(cfg, s.rows, s.events, s.ops[l.o])
    requires Refined(s, Next(cfg, s, l), id)
    ensures l.Refine? && s.rows[id].status.Pending? && !Locked(s, id) && Next(cfg, s, l).events == s.events
  {
    WhatChanges(cfg, s, l);
    hide LaneFree, Unstamped, RefinedCall, OnCalendar, Create;
  }

  lemma ClashLostStep(cfg: Config, s: State, l: Label)
    requires Injective(cfg) && Safe(cfg, s) && FreshOps(s) && ClashLost(cfg, s)
    ensures ClashLost(cfg, Next(cfg, s, l))
  {
    var t := Next(cfg, s, l);
    if l.Commit? && l.o in s.ops { OpIsOk(cfg, s, l.o); }
    OrphansGrow(cfg, s, l);
    forall id | Clash(cfg, t, id) ensures id in t.orphans {
      if id !in s.rows {
        ParkedHasNoClash(cfg, s, l, id);
      } else if Refined(s, t, id) {
        RefineNeedsPending(cfg, s, l, id);
        var args := ParseCall(cfg, t.rows[id].call).value;
        var i :| 0 <= i < |t.events| && t.events[i].owner == args.owner && t.events[i].eventId == cfg.hash(id) && t.events[i].args != args;
        RefinableEventIsLost(cfg, s, id, i);
      } else {
        hide Next, Safe;
        ClashStays(cfg, s, l, id);
      }
    }
  }

  lemma {:induction false} ClashRun(cfg: Config, s: State, labels: seq<Label>, id: ActionId)
    requires cfg.serial && Injective(cfg) && Safe(cfg, s) && Bound(cfg, s) && ClashLost(cfg, s)
    ensures var t := Run(cfg, s, labels);
      && ClashLost(cfg, t)
      && (RefinedIntoClash(cfg, s, labels, id, Clash(cfg, s, id)) <==> Clash(cfg, t, id))
    decreases |labels|
  {
    if labels != [] {
      var t := Next(cfg, s, labels[0]);
      SafeStep(cfg, s, labels[0]);
      BoundStep(cfg, s, labels[0]);
      ClashLostStep(cfg, s, labels[0]);
      if id !in s.rows {
        ParkedHasNoClash(cfg, s, labels[0], id);
      } else if !Refined(s, t, id) {
        ClashStays(cfg, s, labels[0], id);
      }
      hide Next, Safe, Clash, ClashLost;
      assert id !in s.rows ==> !Clash(cfg, s, id);
      ClashRun(cfg, t, labels[1..], id);
    }
  }

  // ----- The content of an executed action -----

  /** The calendar of the row's owner holds exactly the row's arguments, posted by this action. */
  ghost predicate Landed(cfg: Config, s: State, id: ActionId)
    requires id in s.rows
  {
    && ParseCall(cfg, s.rows[id].call).Some?
    && var args := ParseCall(cfg, s.rows[id].call).value;
       Event(args.owner, cfg.hash(id), args, id) in s.events
  }

  lemma LandedUnlessClash(cfg: Config, s: State, id: ActionId)
    requires Injective(cfg) && Safe(cfg, s) && ExecutedOnOwner(cfg, s) && id in s.rows && s.rows[id].status.Executed?
    ensures Landed(cfg, s, id) <==> !Clash(cfg, s, id)
  {
    PostersAreOwn(cfg, s);
    var args := ParseCall(cfg, s.rows[id].call).value;
    var i :| 0 <= i < |s.events| && s.events[i].owner == args.owner && s.events[i].eventId == cfg.hash(id);
    assert OneEventPerId(s.events);
    hide Safe;
    assert s.events[i] == Event(args.owner, cfg.hash(id), s.events[i].args, id);
  }

  /**
   What was approved is what landed, exactly: with the serial lane and event ids that
   differ, an executed action's calendar holds the row's arguments if and only if its
   last applied refinement did not pick arguments for which the owner's calendar
   already held the action's event with other ones.  That needs a create that landed
   and was lost, so without one the content always agrees.
   */
  lemma ExecutedContentIff(cfg: Config, labels: seq<Label>, id: ActionId)
    requires cfg.serial && Injective(cfg)
    requires var s := Run(cfg, Initial, labels);
      id in s.rows && s.rows[id].status.Executed?
    ensures var s := Run(cfg, Initial, labels);
      && (Landed(cfg, s, id) <==> !RefinedIntoClash(cfg, Initial, labels, id, false))
      && (id !in s.orphans ==> Landed(cfg, s, id))
  {
    BoundRun(cfg, Initial, labels);
    ClashRun(cfg, Initial, labels, id);
    LandedUnlessClash(cfg, Run(cfg, Initial, labels), id);
  }

  /** No refinement was applied to the action after one of its answers was lost. */
  ghost predicate UnrefinedAfterLoss(cfg: Config, s: State, labels: seq<Label>, id: ActionId)
    decreases |labels|
  {
    labels == [] ||
    var t := Next(cfg, s, labels[0]);
    (Refined(s, t, id) ==> id !in s.orphans) && UnrefinedAfterLoss(cfg, t, labels[1..], id)
  }

  lemma {:induction false} NoClashWithoutLoss(cfg: Config, s: State, labels: seq<Label>, id: ActionId)
    requires cfg.serial && Injective(cfg) && Safe(cfg, s) && Bound(cfg, s) && ClashLost(cfg, s)
    requires UnrefinedAfterLoss(cfg, s, labels, id)
    ensures !RefinedIntoClash(cfg, s, labels, id, false)
    decreases |labels|
  {
    if labels != [] {
      var l, t := labels[0], Next(cfg, s, labels[0]);
      SafeStep(cfg, s, l);
      BoundStep(cfg, s, l);
      ClashLostStep(cfg, s, l);
      if Refined(s, t, id) {
        if l.Commit? && l.o in s.ops { OpIsOk(cfg, s, l.o); }
        RefineNeedsPending(cfg, s, l, id);
        assert t.orphans == s.orphans;
      }
      hide Next, Safe, Clash, Bound;
      NoClashWithoutLoss(cfg, t, labels[1..], id);
    }
  }

  /** So an action never refined after a lost answer is executed with exactly the arguments its row holds. */
  lemma UnrefinedContentAgrees(cfg: Config, labels: seq<Label>, id: ActionId)
    requires cfg.serial && Injective(cfg) && UnrefinedAfterLoss(cfg, Initial, labels, id)
    requires var s := Run(cfg, Initial, labels);
      id in s.rows && s.rows[id].status.Executed?
    ensures Landed(cfg, Run(cfg, Initial, labels), id)
  {
    NoClashWithoutLoss(cfg, Initial, labels, id);
    ExecutedContentIff(cfg, labels, id);
  }
}
