/**
 The socket-health monitor over time.  An outage is the stretch of state changes
 from the first that is not 'open' to the next 'open'.
 */
module Health {
  import opened Prelude
  import opened Transport

  datatype Change = Change(time: int, state: TransportState)

  datatype AlertKind = Down | LoggedOutAlert | Reconnected

  /** `seen` is how many changes the monitor had seen when it sent the alert. */
  datatype Alert = Alert(kind: AlertKind, time: int, seen: nat)

  /** The first three are the monitor's variables, `graceTimer` holding the armed timer's due time; the rest is history. */
  datatype Monitor = Monitor(graceTimer: Option<int>, downAlertSent: bool, stopped: bool,
                             history: seq<Change>, alerts: seq<Alert>, now: int)

  function Initial(now: int): Monitor {
    Monitor(None, false, false, [], [], now)
  }

  function Send(m: Monitor, kind: AlertKind): Monitor {
    m.(alerts := m.alerts + [Alert(kind, m.now, |m.history|)])
  }

  datatype Label = StateChange(time: int, state: TransportState) | GraceEnds | Stop(time: int)

  /** Time does not run backwards, and not past a due timer. */
  predicate Reaches(m: Monitor, time: int) {
    m.now <= time && (m.graceTimer.Some? ==> time <= m.graceTimer.value)
  }

  predicate Enabled(m: Monitor, l: Label) {
    match l
    case StateChange(time, _) => Reaches(m, time)
    case GraceEnds => m.graceTimer.Some?
    case Stop(time) => Reaches(m, time)
  }

  function OnStateChange(m: Monitor, time: int, state: TransportState, graceMs: int): Monitor {
    if m.stopped then m.(now := time)
    else
      var m1 := m.(now := time, history := m.history + [Change(time, state)]);
      match state
      case Open =>
        var m2 := m1.(graceTimer := None);
        if m.downAlertSent then Send(m2.(downAlertSent := false), Reconnected) else m2
      case LoggedOut =>
        var m2 := m1.(graceTimer := None);
        if m.downAlertSent then m2 else Send(m2.(downAlertSent := true), LoggedOutAlert)
      case _ =>
        if m.graceTimer.Some? || m.downAlertSent then m1 else m1.(graceTimer := Some(time + graceMs))
  }

  function Next(m: Monitor, l: Label, graceMs: int): Monitor
    requires Enabled(m, l)
  {
    match l
    case StateChange(time, state) => OnStateChange(m, time, state, graceMs)
    case GraceEnds => Send(m.(graceTimer := None, downAlertSent := true, now := m.graceTimer.value), Down)
    case Stop(time) => m.(stopped := true, graceTimer := None, now := time)
  }

  predicate Possible(m: Monitor, labels: seq<Label>, graceMs: int)
    decreases |labels|
  {
    labels == [] || (Enabled(m, labels[0]) && Possible(Next(m, labels[0], graceMs), labels[1..], graceMs))
  }

  function Run(m: Monitor, labels: seq<Label>, graceMs: int): Monitor
    requires Possible(m, labels, graceMs)
    decreases |labels|
  {
    if labels == [] then m else Run(Next(m, labels[0], graceMs), labels[1..], graceMs)
  }

  // ----- Outages -----

  /** Where the outage that the history ends in starts; the history's length when it ends in none. */
  function OutageStart(h: seq<Change>): (i: nat)
    ensures i <= |h| && forall k :: i <= k < |h| ==> !h[k].state.Open?
    ensures i > 0 ==> h[i - 1].state.Open?
    decreases |h|
  {
    if h == [] then 0
    else if h[|h| - 1].state.Open? then |h|
    else OutageStart(h[..|h| - 1])
  }

  predicate NoLogout(h: seq<Change>, start: nat) {
    forall k :: start <= k < |h| ==> !h[k].state.LoggedOut?
  }

  /** Outage alerts and reconnect alerts take turns, an outage alert first. */
  predicate Alternate(alerts: seq<Alert>) {
    forall i :: 0 <= i < |alerts| ==> (alerts[i].kind.Reconnected? <==> i % 2 == 1)
  }

  /** What each alert means in terms of the changes seen when it was sent. */
  predicate Justified(h: seq<Change>, a: Alert, graceMs: int) {
    && a.seen <= |h|
    && var seen := h[..a.seen];
       var start := OutageStart(seen);
       match a.kind
       case Down => start < a.seen && NoLogout(seen, start) && a.time == seen[start].time + graceMs
       case LoggedOutAlert => a.seen > 0 && seen[a.seen - 1] == Change(a.time, LoggedOut)
       case Reconnected => a.seen > 0 && seen[a.seen - 1] == Change(a.time, Open)
  }

  /** The monitor knows where it is in the outage. */
  predicate Tracks(m: Monitor, graceMs: int) {
    var start := OutageStart(m.history);
    if start == |m.history| then m.graceTimer.None? && !m.downAlertSent
    else match m.graceTimer
      case None => m.downAlertSent
      case Some(due) => !m.downAlertSent && NoLogout(m.history, start) && due == m.history[start].time + graceMs && m.now <= due
  }

  predicate Ok(m: Monitor, graceMs: int) {
    && (m.stopped ==> m.graceTimer.None?)
    && (!m.stopped ==> Tracks(m, graceMs))
    && Alternate(m.alerts) && (m.downAlertSent <==> |m.alerts| % 2 == 1)
    && AllJustified(m.history, m.alerts, graceMs)
  }

  lemma OutageSnoc(h: seq<Change>, c: Change)
    ensures OutageStart(h + [c]) == if c.state.Open? then |h| + 1 else OutageStart(h)
  {
    assert (h + [c])[..|h|] == h;
  }

  lemma JustifiedGrows(h: seq<Change>, c: Change, a: Alert, graceMs: int)
    requires Justified(h, a, graceMs)
    ensures Justified(h + [c], a, graceMs)
  {
    assert (h + [c])[..a.seen] == h[..a.seen];
  }

  /** Sending the alert that is due keeps the alternation. */
  lemma SendKeeps(m: Monitor, kind: AlertKind)
    requires Alternate(m.alerts) && (kind.Reconnected? <==> |m.alerts| % 2 == 1)
    ensures Alternate(Send(m, kind).alerts)
  {
  }

  lemma ChangeTracks(m: Monitor, time: int, state: TransportState, graceMs: int)
    requires graceMs >= 0 && !m.stopped && Tracks(m, graceMs) && Reaches(m, time)
    ensures Tracks(OnStateChange(m, time, state, graceMs), graceMs)
  {
    OutageSnoc(m.history, Change(time, state));
    var h := m.history + [Change(time, state)];
    var start := OutageStart(m.history);
    assert !state.Open? && start < |m.history| ==> h[start] == m.history[start];
    assert !state.LoggedOut? && NoLogout(m.history, start) ==> NoLogout(h, start);
  }

  predicate AllJustified(h: seq<Change>, alerts: seq<Alert>, graceMs: int) {
    forall i :: 0 <= i < |alerts| ==> Justified(h, alerts[i], graceMs)
  }

  lemma ChangeJustified(m: Monitor, time: int, state: TransportState, graceMs: int)
    requires !m.stopped && AllJustified(m.history, m.alerts, graceMs)
    ensures var t := OnStateChange(m, time, state, graceMs);
      AllJustified(t.history, t.alerts, graceMs)
  {
    hide OutageStart;
    var c := Change(time, state);
    var h := m.history + [c];
    assert h[..|h|] == h && h[|h| - 1] == c;
    forall i | 0 <= i < |m.alerts| ensures Justified(h, m.alerts[i], graceMs) {
      JustifiedGrows(m.history, c, m.alerts[i], graceMs);
    }
  }

  lemma OkChange(m: Monitor, time: int, state: TransportState, graceMs: int)
    requires graceMs >= 0 && Ok(m, graceMs) && Reaches(m, time)
    ensures Ok(OnStateChange(m, time, state, graceMs), graceMs)
  {
    if !m.stopped {
      ChangeTracks(m, time, state, graceMs);
      ChangeJustified(m, time, state, graceMs);
      hide Tracks, AllJustified;
    }
  }

  lemma OkGrace(m: Monitor, graceMs: int)
    requires Ok(m, graceMs) && m.graceTimer.Some?
    ensures Ok(Next(m, GraceEnds, graceMs), graceMs)
  {
    assert m.history[..|m.history|] == m.history;
  }

  lemma OkStep(m: Monitor, l: Label, graceMs: int)
    requires graceMs >= 0 && Ok(m, graceMs) && Enabled(m, l)
    ensures Ok(Next(m, l, graceMs), graceMs)
  {
    match l
    case StateChange(time, state) => OkChange(m, time, state, graceMs);
    case GraceEnds => OkGrace(m, graceMs);
    case Stop(time) =>
  }

  // ----- None is missed -----

  /** h[i..j] is an outage: nothing in it is 'open', and it cannot be extended. */
  predicate IsOutage(h: seq<Change>, i: nat, j: nat) {
    && i < j <= |h| && (forall k :: i <= k < j ==> !h[k].state.Open?)
    && (i > 0 ==> h[i - 1].state.Open?) && (j < |h| ==> h[j].state.Open?)
  }

  predicate Alerted(alerts: seq<Alert>, i: nat, j: nat) {
    exists k :: 0 <= k < |alerts| && !alerts[k].kind.Reconnected? && i < alerts[k].seen <= j
  }

  predicate Recovered(alerts: seq<Alert>, j: nat) {
    exists k :: 0 <= k < |alerts| && alerts[k].kind.Reconnected? && alerts[k].seen == j + 1
  }

  /** The outage saw a logout, or lasted longer than the grace before `end`. */
  predicate Overdue(h: seq<Change>, i: nat, j: nat, end: int, graceMs: int)
    requires i < j <= |h|
  {
    h[i].time + graceMs < end || !NoLogout(h[..j], i)
  }

  /** An outage that is over had its alert if it was overdue, and its reconnect alert exactly if it had one. */
  predicate ClosedHandled(h: seq<Change>, alerts: seq<Alert>, i: nat, j: nat, graceMs: int)
    requires i < j < |h|
  {
    (Overdue(h, i, j, h[j].time, graceMs) ==> Alerted(alerts, i, j)) && (Alerted(alerts, i, j) <==> Recovered(alerts, j))
  }

  ghost predicate AllClosedHandled(m: Monitor, graceMs: int) {
    forall i: nat, j: nat :: IsOutage(m.history, i, j) && j < |m.history| ==> ClosedHandled(m.history, m.alerts, i, j, graceMs)
  }

  /** The flag is about the outage at hand. */
  ghost predicate FlagIsOutage(m: Monitor) {
    && (forall k :: 0 <= k < |m.alerts| ==> m.alerts[k].seen <= |m.history|)
    && (m.downAlertSent <==> Alerted(m.alerts, OutageStart(m.history), |m.history|))
  }

  ghost predicate Handled(m: Monitor, graceMs: int) {
    AllClosedHandled(m, graceMs) && (!m.stopped ==> FlagIsOutage(m))
  }

  lemma LastOutage(h: seq<Change>, i: nat)
    requires IsOutage(h, i, |h|)
    ensures OutageStart(h) == i
    decreases |h|
  {
    if i < |h| - 1 {
      assert IsOutage(h[..|h| - 1], i, |h| - 1);
      LastOutage(h[..|h| - 1], i);
    }
  }

  /** An old outage keeps its alerts, whatever is sent later. */
  lemma ClosedStays(h: seq<Change>, c: Change, alerts: seq<Alert>, more: seq<Alert>, i: nat, j: nat, graceMs: int)
    requires i < j < |h| && ClosedHandled(h, alerts, i, j, graceMs)
    requires forall k :: 0 <= k < |more| ==> more[k].seen > |h|
    ensures ClosedHandled(h + [c], alerts + more, i, j, graceMs)
  {
    var all := alerts + more;
    assert (h + [c])[..j] == h[..j];
    assert forall k :: 0 <= k < |all| && all[k].seen <= |h| ==> k < |alerts|;
    assert forall k :: 0 <= k < |alerts| ==> all[k] == alerts[k];
    assert Alerted(all, i, j) <==> Alerted(alerts, i, j);
    assert Recovered(all, j) <==> Recovered(alerts, j);
  }

  /** The outage that an 'open' ends is handled at once. */
  lemma OpenHandles(m: Monitor, time: int, graceMs: int)
    requires graceMs >= 0 && !m.stopped && Tracks(m, graceMs) && FlagIsOutage(m) && Reaches(m, time)
    requires OutageStart(m.history) < |m.history|
    ensures var t := OnStateChange(m, time, Open, graceMs);
      ClosedHandled(t.history, t.alerts, OutageStart(m.history), |m.history|, graceMs)
  {
    var t := OnStateChange(m, time, Open, graceMs);
    var i, j := OutageStart(m.history), |m.history|;
    assert t.history[..j] == m.history;
    assert t.history[i] == m.history[i] && t.history[j].time == time;
    assert m.downAlertSent ==> t.alerts[|m.alerts|].kind.Reconnected? && t.alerts[|m.alerts|].seen == j + 1;
    assert forall k :: 0 <= k < |m.alerts| ==> t.alerts[k] == m.alerts[k];
    assert Alerted(t.alerts, i, j) <==> Alerted(m.alerts, i, j);
  }

  lemma ChangeHandles(m: Monitor, time: int, state: TransportState, graceMs: int)
    requires graceMs >= 0 && !m.stopped && Tracks(m, graceMs) && Handled(m, graceMs) && Reaches(m, time)
    ensures AllClosedHandled(OnStateChange(m, time, state, graceMs), graceMs)
  {
    var c := Change(time, state);
    var t := OnStateChange(m, time, state, graceMs);
    var more := t.alerts[|m.alerts|..];
    assert t.history == m.history + [c] && t.alerts == m.alerts + more;
    forall i: nat, j: nat | IsOutage(t.history, i, j) && j < |t.history|
      ensures ClosedHandled(t.history, t.alerts, i, j, graceMs)
    {
      assert forall k :: 0 <= k < |m.history| ==> t.history[k] == m.history[k];
      assert IsOutage(m.history, i, j);
      if j < |m.history| {
        ClosedStays(m.history, c, m.alerts, more, i, j, graceMs);
      } else {
        LastOutage(m.history, i);
        assert state.Open?;
        OpenHandles(m, time, graceMs);
      }
    }
  }

  lemma ChangeFlags(m: Monitor, time: int, state: TransportState, graceMs: int)
    requires !m.stopped && FlagIsOutage(m)
    ensures FlagIsOutage(OnStateChange(m, time, state, graceMs))
  {
    var t := OnStateChange(m, time, state, graceMs);
    OutageSnoc(m.history, Change(time, state));
    SentSoFar(m, time, state, graceMs);
    if m.downAlertSent && !state.Open? { AlertedLonger(m.alerts, t.alerts, OutageStart(m.history), |m.history|); }
    assert forall k :: 0 <= k < |m.alerts| ==> t.alerts[k] == m.alerts[k];
    hide OutageStart;
  }

  lemma SentSoFar(m: Monitor, time: int, state: TransportState, graceMs: int)
    requires !m.stopped
    ensures var t := OnStateChange(m, time, state, graceMs);
      m.alerts <= t.alerts && |t.alerts| <= |m.alerts| + 1
      && (|t.alerts| > |m.alerts| ==> t.alerts[|m.alerts|].seen == |m.history| + 1)
  {
  }

  lemma AlertedLonger(alerts: seq<Alert>, more: seq<Alert>, i: nat, j: nat)
    requires Alerted(alerts, i, j) && alerts <= more
    ensures Alerted(more, i, j) && Alerted(more, i, j + 1)
  {
    var k :| 0 <= k < |alerts| && !alerts[k].kind.Reconnected? && i < alerts[k].seen <= j;
    assert more[k] == alerts[k];
  }

  lemma GraceHandles(m: Monitor, graceMs: int)
    requires !m.stopped && Tracks(m, graceMs) && Handled(m, graceMs) && m.graceTimer.Some?
    ensures Handled(Next(m, GraceEnds, graceMs), graceMs)
  {
    var t := Next(m, GraceEnds, graceMs);
    assert forall k :: 0 <= k < |m.alerts| ==> t.alerts[k] == m.alerts[k];
    assert t.alerts[|m.alerts|] == Alert(Down, t.now, |m.history|);
    forall i: nat, j: nat | IsOutage(t.history, i, j) && j < |t.history|
      ensures ClosedHandled(t.history, t.alerts, i, j, graceMs)
    {
      assert ClosedHandled(m.history, m.alerts, i, j, graceMs);
      assert Alerted(t.alerts, i, j) <==> Alerted(m.alerts, i, j);
      assert Recovered(t.alerts, j) <==> Recovered(m.alerts, j);
    }
  }

  lemma HandledStep(m: Monitor, l: Label, graceMs: int)
    requires graceMs >= 0 && Ok(m, graceMs) && Handled(m, graceMs) && Enabled(m, l)
    ensures Handled(Next(m, l, graceMs), graceMs)
  {
    match l
    case StateChange(time, state) =>
      if !m.stopped {
        ChangeHandles(m, time, state, graceMs);
        ChangeFlags(m, time, state, graceMs);
      }
    case GraceEnds => GraceHandles(m, graceMs);
    case Stop(time) =>
  }

  lemma {:induction false} HandledRun(m: Monitor, labels: seq<Label>, graceMs: int)
    requires graceMs >= 0 && Ok(m, graceMs) && Handled(m, graceMs) && Possible(m, labels, graceMs)
    ensures Ok(Run(m, labels, graceMs), graceMs) && Handled(Run(m, labels, graceMs), graceMs)
    decreases |labels|
  {
    if labels != [] {
      OkStep(m, labels[0], graceMs);
      HandledStep(m, labels[0], graceMs);
      HandledRun(Next(m, labels[0], graceMs), labels[1..], graceMs);
    }
  }

  /**
   For every timed run: alerts alternate, an outage alert first; a down alert is sent
   exactly graceMs after its outage's first change, with no logout seen in it; a
   logout alert at its logout; a reconnect alert at its 'open'.  And none is missed,
   outage by outage: one that is over had its alert if it was overdue, and a
   reconnect alert exactly if it had one; until stop the same holds of the one at
   hand, as far as time has come.
   */
  lemma AlertsAreRight(now: int, labels: seq<Label>, graceMs: int)
    requires graceMs >= 0 && Possible(Initial(now), labels, graceMs)
    ensures var m := Run(Initial(now), labels, graceMs);
      && Alternate(m.alerts)
      && (forall i :: 0 <= i < |m.alerts| ==> Justified(m.history, m.alerts[i], graceMs))
      && (forall i: nat, j: nat :: IsOutage(m.history, i, j) && j < |m.history| ==>
            ClosedHandled(m.history, m.alerts, i, j, graceMs))
      && (forall i: nat :: IsOutage(m.history, i, |m.history|) && !m.stopped && Overdue(m.history, i, |m.history|, m.now, graceMs) ==>
            Alerted(m.alerts, i, |m.history|))
  {
    HandledRun(Initial(now), labels, graceMs);
    var m := Run(Initial(now), labels, graceMs);
    forall i: nat | IsOutage(m.history, i, |m.history|) && !m.stopped && Overdue(m.history, i, |m.history|, m.now, graceMs)
      ensures Alerted(m.alerts, i, |m.history|)
    {
      LastOutage(m.history, i);
      assert m.history[..|m.history|] == m.history;
    }
  }
}
