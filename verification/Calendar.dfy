/**
 Whether a window is free on an owner's calendar, and why an action whose create landed
 and was lost does not find its own event in its way when it is approved again.
 */
module Calendar {
  import opened Prelude
  import A = Approvals

  datatype Window = Window(start: int, end: int)

  /** A listed event.  The ones the protocol created are timed; the household's own may be anything. */
  datatype Listed = Listed(eventId: string, owner: A.Owner, allDay: bool, span: Window)

  predicate Overlaps(e: Listed, owner: A.Owner, w: Window) {
    e.owner == owner && e.span.start < w.end && w.start < e.span.end
  }

  predicate Within(t: int, w: Window) {
    w.start <= t < w.end
  }

  /** Two windows overlap exactly when they share time; back to back they do not. */
  lemma OverlapIsSharedTime(e: Listed, owner: A.Owner, w: Window)
    requires e.span.start < e.span.end && w.start < w.end
    ensures Overlaps(e, owner, w) <==> e.owner == owner && exists t :: Within(t, e.span) && Within(t, w)
  {
    var t := if e.span.start < w.start then w.start else e.span.start;
    if Overlaps(e, owner, w) { assert Within(t, e.span) && Within(t, w); }
  }

  /** What the calendars list: the protocol's events in their windows, and the household's. */
  function Calendars(events: seq<A.Event>, household: seq<Listed>, window: A.CalendarArgs -> Window): seq<Listed> {
    seq(|events|, i requires 0 <= i < |events| => Listed(events[i].eventId, events[i].owner, false, window(events[i].args))) + household
  }

  /** The calendar's answer: the owner's events that overlap the window, in order. */
  function ListEvents(events: seq<Listed>, owner: A.Owner, w: Window): (r: seq<Listed>)
    ensures forall e :: e in r <==> e in events && Overlaps(e, owner, w)
  {
    if events == [] then []
    else (if Overlaps(events[0], owner, w) then [events[0]] else []) + ListEvents(events[1..], owner, w)
  }

  /** Free when nothing timed overlaps but perhaps the event that is to be ignored. */
  method IsFree(events: seq<Listed>, owner: A.Owner, w: Window, ignoreEventId: Option<string>) returns (free: bool)
    ensures free <==> Free(events, owner, w, ignoreEventId)
  {
    var listed := ListEvents(events, owner, w);
    free := true;
    for i := 0 to |listed|
      invariant free <==> forall k :: 0 <= k < i ==> listed[k].allDay || Some(listed[k].eventId) == ignoreEventId
    {
      if !listed[i].allDay && Some(listed[i].eventId) != ignoreEventId { free := false; }
    }
    assert forall k :: 0 <= k < |listed| ==> listed[k] in events && Overlaps(listed[k], owner, w);
  }

  predicate Free(events: seq<Listed>, owner: A.Owner, w: Window, ignoreEventId: Option<string>) {
    forall e :: e in events && Overlaps(e, owner, w) && !e.allDay ==> Some(e.eventId) == ignoreEventId
  }

  /** What an action's revalidation asks for these arguments. */
  predicate Revalidates(cfg: A.Config, s: A.State, household: seq<Listed>, window: A.CalendarArgs -> Window,
                        id: A.ActionId, args: A.CalendarArgs) {
    Free(Calendars(s.events, household, window), args.owner, window(args), Some(cfg.hash(id)))
  }

  lemma CalendarsGrow(events: seq<A.Event>, e: A.Event, household: seq<Listed>, window: A.CalendarArgs -> Window, x: Listed)
    ensures x in Calendars(events + [e], household, window) <==>
      x in Calendars(events, household, window) || x == Listed(e.eventId, e.owner, false, window(e.args))
  {
    var before, after := Calendars(events, household, window), Calendars(events + [e], household, window);
    if x in before {
      var i :| 0 <= i < |before| && before[i] == x;
      assert after[if i < |events| then i else i + 1] == x;
    }
    if x in after {
      var i :| 0 <= i < |after| && after[i] == x;
      assert i < |events| ==> before[i] == x;
      assert i > |events| ==> before[i - 1] == x;
    }
    assert after[|events|] == Listed(e.eventId, e.owner, false, window(e.args));
  }

  lemma OwnEventIsIgnored(cfg: A.Config, s: A.State, e: A.Event, household: seq<Listed>, window: A.CalendarArgs -> Window,
                          id: A.ActionId, args: A.CalendarArgs)
    requires e.eventId == cfg.hash(id)
    ensures Revalidates(cfg, s.(events := s.events + [e]), household, window, id, args) <==>
      Revalidates(cfg, s, household, window, id, args)
  {
    forall x ensures x in Calendars(s.events + [e], household, window) <==>
      x in Calendars(s.events, household, window) || x == Listed(e.eventId, e.owner, false, window(e.args))
    {
      CalendarsGrow(s.events, e, household, window, x);
    }
  }

  /**
   The own-id exemption, in the protocol: no execute attempt of an action, landed,
   lost or answered, changes what that action's revalidation answers later, for
   whatever arguments it then has.
   */
  lemma OwnAttemptIsNoConflict(cfg: A.Config, s: A.State, o: A.OpId, a: A.CreateAnswer, household: seq<Listed>,
                               window: A.CalendarArgs -> Window, args: A.CalendarArgs)
    requires o in s.ops && s.ops[o].Settling?
    ensures Revalidates(cfg, A.DoExecute(cfg, s, o, a), household, window, s.ops[o].id, args) <==>
      Revalidates(cfg, s, household, window, s.ops[o].id, args)
  {
    var t := A.DoExecute(cfg, s, o, a);
    if t.events != s.events {
      var op := s.ops[o];
      OwnEventIsIgnored(cfg, s, A.Event(op.pc.args.owner, cfg.hash(op.id), op.pc.args, op.id), household, window, op.id, args);
    }
  }

  /** Without the exemption the action would call its own landed event a conflict. */
  lemma ConflictWithoutExemption(events: seq<A.Event>, e: A.Event, household: seq<Listed>, window: A.CalendarArgs -> Window)
    requires window(e.args).start < window(e.args).end
    ensures !Free(Calendars(events + [e], household, window), e.owner, window(e.args), None)
  {
    CalendarsGrow(events, e, household, window, Listed(e.eventId, e.owner, false, window(e.args)));
  }
}
