/**
 The reconnect machine of the WhatsApp adapter: the closure's variables, and the
 awaits, sleeps and sockets that can still call back into it.
 */
module Transport {
  import opened Prelude

  datatype TransportState = Closed | Connecting | Open | LoggedOut

  datatype DisconnectAction = RePair | VersionRejected | Restart | Retry

  const LOGGED_OUT := 401
  const VERSION_REJECTED := 405
  const RESTART_REQUIRED := 515

  function ClassifyDisconnect(statusCode: Option<int>): DisconnectAction {
    if statusCode == Some(LOGGED_OUT) then RePair
    else if statusCode == Some(VERSION_REJECTED) then VersionRejected
    else if statusCode == Some(RESTART_REQUIRED) then Restart
    else Retry
  }

  /**
   The first eight components are the adapter's variables; `watchdog` is the attempt
   the armed timer was set for.  The next four are what is outstanding: unfinished
   starts with whether they run in the background, retry sleeps, version
   fall-forwards, and the attempts whose socket can still emit.  `backoffs` counts
   the retry sleeps scheduled since the budget was last reset.
   */
  datatype Adapter = Adapter(state: TransportState, sock: Option<nat>, intentionalClose: bool, forceRestart: bool,
                             retryAttempts: nat, connectAttempt: nat, watchdog: Option<nat>, maxAttempts: nat,
                             starts: map<nat, bool>, sleeps: nat, falls: nat, sockets: set<nat>, backoffs: nat)

  function Initial(maxAttempts: nat): Adapter {
    Adapter(Closed, None, false, false, 0, 0, None, maxAttempts, map[], 0, 0, {}, 0)
  }

  /** The part of a start before its first await: a new attempt, connecting, watched. */
  function StartSocket(t: Adapter, background: bool): Adapter {
    var attempt := t.connectAttempt + 1;
    t.(connectAttempt := attempt, state := Connecting, watchdog := Some(attempt), starts := t.starts[attempt := background])
  }

  function ScheduleRetry(t: Adapter): Adapter {
    var t1 := t.(retryAttempts := t.retryAttempts + 1);
    if t1.retryAttempts > t.maxAttempts then t1.(state := Closed)
    else t1.(sleeps := t.sleeps + 1, backoffs := t.backoffs + 1)
  }

  function HandleClose(t: Adapter, statusCode: Option<int>): Adapter {
    var t1 := t.(watchdog := None);
    if t.intentionalClose then t1.(state := Closed)
    else if t.forceRestart then StartSocket(t1.(forceRestart := false), true)
    else match ClassifyDisconnect(statusCode)
      case RePair => t1.(state := LoggedOut)
      case Restart => StartSocket(t1, true)
      case VersionRejected => t1.(falls := t.falls + 1)
      case Retry => ScheduleRetry(t1)
  }

  function OnConnectTimeout(t: Adapter, attempt: nat): Adapter {
    if attempt != t.connectAttempt then t
    else ScheduleRetry(t.(watchdog := None, connectAttempt := t.connectAttempt + 1, sock := None))
  }

  // ----- Everything that can happen -----

  datatype Label =
    | StartResolves(attempt: nat)
    | StartRejects(attempt: nat)
    | SocketOpens(attempt: nat)
    | SocketCloses(attempt: nat, statusCode: Option<int>)
    | WatchdogFires
    | SleepEnds
    | FallEnds(adopted: bool)
    | Connect
    | Disconnect
    | ForceReconnect

  predicate Enabled(t: Adapter, l: Label) {
    match l
    case StartResolves(a) => a in t.starts
    case StartRejects(a) => a in t.starts
    case SocketOpens(a) => a in t.sockets
    case SocketCloses(a, _) => a in t.sockets
    case WatchdogFires => t.watchdog.Some?
    case SleepEnds => t.sleeps > 0
    case FallEnds(_) => t.falls > 0
    case _ => true
  }

  /** Ending a socket, as the API calls and the watchdog do, shows only in the close it may still emit. */
  function Next(t: Adapter, l: Label): Adapter
    requires Enabled(t, l)
  {
    match l
    case StartResolves(a) =>
      var t1 := t.(starts := t.starts - {a});
      if a != t.connectAttempt then t1 else t1.(sock := Some(a), sockets := t.sockets + {a})
    case StartRejects(a) =>
      var t1 := t.(starts := t.starts - {a});
      if !t.starts[a] then t1
      else if t.intentionalClose then t1.(watchdog := None)
      else ScheduleRetry(t1.(watchdog := None))
    case SocketOpens(a) =>
      if a != t.connectAttempt then t else t.(watchdog := None, retryAttempts := 0, backoffs := 0, state := Open)
    case SocketCloses(a, code) =>
      var t1 := t.(sockets := t.sockets - {a});
      if a != t.connectAttempt then t1 else HandleClose(t1, code)
    case WatchdogFires => OnConnectTimeout(t, t.watchdog.value)
    case SleepEnds =>
      var t1 := t.(sleeps := t.sleeps - 1);
      if t.intentionalClose then t1 else StartSocket(t1, true)
    case FallEnds(adopted) =>
      var t1 := t.(falls := t.falls - 1);
      if t.intentionalClose then t1
      else if adopted then StartSocket(t1.(retryAttempts := 0, backoffs := 0), true)
      else ScheduleRetry(t1)
    case Connect => StartSocket(t.(intentionalClose := false), false)
    case Disconnect => t.(intentionalClose := true, watchdog := None, state := Closed)
    case ForceReconnect => t.(forceRestart := true)
  }

  /** Events in an order in which each can happen. */
  predicate Possible(t: Adapter, labels: seq<Label>)
    decreases |labels|
  {
    labels == [] || (Enabled(t, labels[0]) && Possible(Next(t, labels[0]), labels[1..]))
  }

  function Run(t: Adapter, labels: seq<Label>): Adapter
    requires Possible(t, labels)
    decreases |labels|
  {
    if labels == [] then t else Run(Next(t, labels[0]), labels[1..])
  }

  // ----- No wedge -----

  /** Something is due that will move a connecting adapter on. */
  predicate Covered(t: Adapter) {
    t.watchdog.Some? || t.sleeps > 0 || t.falls > 0
  }

  predicate AttemptsOk(t: Adapter) {
    && (forall a :: a in t.starts ==> a <= t.connectAttempt && a !in t.sockets)
    && (forall a :: a in t.sockets ==> a <= t.connectAttempt)
    && t.backoffs == (if t.retryAttempts < t.maxAttempts then t.retryAttempts else t.maxAttempts)
  }

  predicate Ok(t: Adapter) {
    && (t.watchdog.Some? ==> t.watchdog.value == t.connectAttempt && !t.intentionalClose)
    && (t.state.Connecting? ==> !t.intentionalClose && Covered(t))
    && AttemptsOk(t)
  }

  lemma OkStart(t: Adapter, background: bool)
    requires AttemptsOk(t) && !t.intentionalClose
    ensures Ok(StartSocket(t, background))
  {
  }

  lemma OkRetry(t: Adapter)
    requires AttemptsOk(t) && !t.intentionalClose && (t.watchdog.Some? ==> t.watchdog.value == t.connectAttempt)
    ensures Ok(ScheduleRetry(t))
  {
  }

  lemma OkClose(t: Adapter, code: Option<int>)
    requires AttemptsOk(t)
    ensures Ok(HandleClose(t, code))
  {
    var t1 := t.(watchdog := None);
    if !t.intentionalClose {
      OkRetry(t1);
      OkStart(t1, true);
      OkStart(t1.(forceRestart := false), true);
    }
  }

  lemma OkRejects(t: Adapter, a: nat)
    requires Ok(t) && a in t.starts
    ensures Ok(Next(t, StartRejects(a)))
  {
    var t1 := t.(starts := t.starts - {a}, watchdog := None);
    if t.starts[a] && !t.intentionalClose { OkRetry(t1); }
  }

  lemma OkStep(t: Adapter, l: Label)
    requires Ok(t) && Enabled(t, l)
    ensures Ok(Next(t, l))
  {
    hide StartSocket, ScheduleRetry, HandleClose;
    match l
    case StartResolves(a) =>
    case StartRejects(a) => OkRejects(t, a);
    case SocketCloses(a, code) =>
      var t1 := t.(sockets := t.sockets - {a});
      if a == t.connectAttempt { OkClose(t1, code); }
    case WatchdogFires => OkRetry(t.(watchdog := None, connectAttempt := t.connectAttempt + 1, sock := None));
    case SleepEnds => if !t.intentionalClose { OkStart(t.(sleeps := t.sleeps - 1), true); }
    case FallEnds(adopted) =>
      var t1 := t.(falls := t.falls - 1);
      if !t.intentionalClose {
        OkRetry(t1);
        OkStart(t1.(retryAttempts := 0, backoffs := 0), true);
      }
    case Connect => OkStart(t.(intentionalClose := false), false);
    case _ =>
  }

  lemma PolicyStays(t: Adapter, l: Label)
    requires Enabled(t, l)
    ensures Next(t, l).maxAttempts == t.maxAttempts
  {
  }

  lemma {:induction false} OkRun(t: Adapter, labels: seq<Label>)
    requires Ok(t) && Possible(t, labels)
    ensures Ok(Run(t, labels)) && Run(t, labels).maxAttempts == t.maxAttempts
    decreases |labels|
  {
    if labels != [] {
      OkStep(t, labels[0]);
      PolicyStays(t, labels[0]);
      OkRun(Next(t, labels[0]), labels[1..]);
    }
  }

  /**
   In every run from a fresh adapter: it is never connecting with nothing due to
   move it on, nor while an intentional close is in force; an armed watchdog is the
   current attempt's, so its own stale check never refuses; and since the budget
   was last reset at most maxAttempts backoffs were scheduled, however often late
   rejections drove the retry twice.
   */
  lemma NeverWedged(maxAttempts: nat, labels: seq<Label>)
    requires Possible(Initial(maxAttempts), labels)
    ensures var t := Run(Initial(maxAttempts), labels);
      && (t.state.Connecting? ==> (t.watchdog == Some(t.connectAttempt) || t.sleeps > 0 || t.falls > 0) && !t.intentionalClose)
      && (t.watchdog.Some? ==> t.watchdog.value == t.connectAttempt && !t.intentionalClose)
      && t.backoffs <= maxAttempts
  {
    OkRun(Initial(maxAttempts), labels);
  }

  // ----- Giving up -----

  /** No attempt opens, none is told to restart, no new version is offered, nobody calls. */
  predicate Fruitless(l: Label) {
    match l
    case SocketOpens(_) => false
    case SocketCloses(_, code) => ClassifyDisconnect(code) != Restart
    case FallEnds(adopted) => !adopted
    case Connect => false
    case Disconnect => false
    case ForceReconnect => false
    case _ => true
  }

  function Budget(t: Adapter): nat {
    if t.retryAttempts < t.maxAttempts then t.maxAttempts - t.retryAttempts else 0
  }

  /** Each outstanding thing weighs more than all it can leave behind without spending budget. */
  function Work(t: Adapter): nat {
    (if t.watchdog.Some? then 1 else 0) + t.falls + 2 * |t.sockets| + 3 * |t.starts| + 5 * t.sleeps
    + (if t.forceRestart then 3 else 0)
  }

  lemma RetryCost(t: Adapter)
    ensures var u := ScheduleRetry(t);
      || (Budget(u) + 1 == Budget(t) && Work(u) == Work(t) + 5)
      || (Budget(u) == Budget(t) == 0 && Work(u) == Work(t) && u.state.Closed?)
  {
  }

  lemma MapGrows(m: map<nat, bool>, a: nat, background: bool)
    requires a !in m
    ensures |m[a := background]| == |m| + 1
  {
    assert m[a := background].Keys == m.Keys + {a};
  }

  lemma StartCost(t: Adapter, background: bool)
    requires t.connectAttempt + 1 !in t.starts
    ensures var u := StartSocket(t, background);
      Budget(u) == Budget(t) && Work(u) <= Work(t) + 4 && (t.watchdog.Some? ==> Work(u) == Work(t) + 3)
  {
    MapGrows(t.starts, t.connectAttempt + 1, background);
  }

  lemma FreshAttempt(t: Adapter)
    requires AttemptsOk(t)
    ensures t.connectAttempt + 1 !in t.starts
  {
  }

  lemma StartDone(t: Adapter, a: nat)
    requires a in t.starts
    ensures |t.starts - {a}| == |t.starts| - 1
  {
    assert (t.starts - {a}).Keys == t.starts.Keys - {a};
  }

  /** (budget, work) goes down lexicographically, and so does their weighted sum. */
  ghost predicate Less(u: Adapter, t: Adapter) {
    && (Budget(u) < Budget(t) || (Budget(u) == Budget(t) && Work(u) < Work(t)))
    && Work(u) + 5 * Budget(u) < Work(t) + 5 * Budget(t)
  }

  lemma FruitlessClose(t: Adapter, a: nat, code: Option<int>)
    requires AttemptsOk(t) && a in t.sockets && ClassifyDisconnect(code) != Restart
    ensures Less(Next(t, SocketCloses(a, code)), t)
    ensures Next(t, SocketCloses(a, code)).state.Open? ==> t.state.Open?
  {
    var t1 := t.(sockets := t.sockets - {a});
    var t2 := t1.(watchdog := None);
    assert Work(t1) + 2 == Work(t) && Work(t2) <= Work(t1);
    RetryCost(t2);
    if t.forceRestart { StartCost(t2.(forceRestart := false), true); }
  }

  lemma FruitlessReject(t: Adapter, a: nat)
    requires a in t.starts
    ensures Less(Next(t, StartRejects(a)), t)
    ensures Next(t, StartRejects(a)).state.Open? ==> t.state.Open?
  {
    StartDone(t, a);
    RetryCost(t.(starts := t.starts - {a}, watchdog := None));
  }

  lemma FruitlessResolve(t: Adapter, a: nat)
    requires a in t.starts
    ensures Less(Next(t, StartResolves(a)), t)
  {
    StartDone(t, a);
    assert |t.sockets + {a}| <= |t.sockets| + 1;
  }

  /** Every fruitless event brings the adapter closer to giving up, and none opens it. */
  lemma FruitlessStep(t: Adapter, l: Label)
    requires AttemptsOk(t) && (t.watchdog.Some? ==> t.watchdog.value == t.connectAttempt)
    requires Enabled(t, l) && Fruitless(l)
    ensures Less(Next(t, l), t)
    ensures Next(t, l).state.Open? ==> t.state.Open?
  {
    hide Ok, AttemptsOk, HandleClose;
    match l
    case StartResolves(a) => FruitlessResolve(t, a);
    case StartRejects(a) => FruitlessReject(t, a);
    case SocketCloses(a, code) => FruitlessClose(t, a, code);
    case WatchdogFires => RetryCost(t.(watchdog := None, connectAttempt := t.connectAttempt + 1, sock := None));
    case SleepEnds =>
      FreshAttempt(t);
      StartCost(t.(sleeps := t.sleeps - 1), true);
    case FallEnds(_) => RetryCost(t.(falls := t.falls - 1));
  }

  /** Nothing is outstanding any more, except perhaps sockets that stay silent. */
  predicate Spent(t: Adapter) {
    |t.starts| == 0 && t.sleeps == 0 && t.falls == 0 && t.watchdog.None?
  }

  lemma {:induction false} FruitlessRun(t: Adapter, labels: seq<Label>)
    requires Ok(t) && !t.state.Open? && Possible(t, labels)
    requires forall i :: 0 <= i < |labels| ==> Fruitless(labels[i])
    ensures var u := Run(t, labels);
      Ok(u) && !u.state.Open? && |labels| + Work(u) + 5 * Budget(u) <= Work(t) + 5 * Budget(t)
    decreases |labels|
  {
    if labels != [] {
      OkStep(t, labels[0]);
      FruitlessStep(t, labels[0]);
      FruitlessRun(Next(t, labels[0]), labels[1..]);
    }
  }

  /**
   A connecting adapter whose attempts stay fruitless gives up: only so many more
   events can happen, and when nothing is outstanding it is closed or logged out.
   */
  lemma GivesUp(t: Adapter, labels: seq<Label>)
    requires Ok(t) && t.state.Connecting? && Possible(t, labels)
    requires forall i :: 0 <= i < |labels| ==> Fruitless(labels[i])
    ensures |labels| <= Work(t) + 5 * Budget(t)
    ensures var u := Run(t, labels);
      Spent(u) ==> u.state.Closed? || u.state.LoggedOut?
  {
    FruitlessRun(t, labels);
  }

  /** Until then something outstanding can always happen fruitlessly, so it does not stall on the way. */
  lemma NotStuck(t: Adapter) returns (l: Label)
    requires Ok(t) && !Spent(t)
    ensures Enabled(t, l) && Fruitless(l)
  {
    if t.watchdog.Some? {
      l := WatchdogFires;
    } else if t.sleeps > 0 {
      l := SleepEnds;
    } else if t.falls > 0 {
      l := FallEnds(false);
    } else {
      assert |t.starts| != 0 && t.starts != map[];
      var a :| a in t.starts;
      l := StartRejects(a);
    }
  }

  // ----- What an abandoned attempt can still do -----

  /** The attempt whose start or socket the event comes from. */
  function AttemptOf(l: Label): Option<nat> {
    match l
    case StartResolves(a) => Some(a)
    case StartRejects(a) => Some(a)
    case SocketOpens(a) => Some(a)
    case SocketCloses(a, _) => Some(a)
    case _ => None
  }

  predicate BackgroundRejection(t: Adapter, l: Label) {
    l.StartRejects? && l.attempt in t.starts && t.starts[l.attempt]
  }

  /** The current attempt's start is still running and nothing watches it. */
  predicate Unwatched(t: Adapter) {
    t.connectAttempt in t.starts && t.watchdog.None?
  }

  /**
   Exactly when an abandoned attempt's event acts: it spends budget if and only if it
   is the rejection of a background start while no intentional close is in force.  A
   background rejection also clears the watchdog, whosever it is; every other event
   of an abandoned attempt only leaves the lists of what is outstanding.
   */
  lemma StaleEvents(t: Adapter, l: Label)
    requires Enabled(t, l) && AttemptOf(l).Some? && AttemptOf(l).value != t.connectAttempt
    ensures var u := Next(t, l);
      && (u.retryAttempts != t.retryAttempts <==> BackgroundRejection(t, l) && !t.intentionalClose)
      && (BackgroundRejection(t, l) ==> u.watchdog.None? && u.connectAttempt == t.connectAttempt)
      && (!BackgroundRejection(t, l) ==>
            u == t.(starts := if l.StartResolves? || l.StartRejects? then t.starts - {l.attempt} else t.starts,
                    sockets := if l.SocketCloses? then t.sockets - {l.attempt} else t.sockets))
  {
  }

  /**
   A start that is running and watched loses its watchdog in only two ways: a
   disconnect, or the background rejection of another, abandoned attempt.
   */
  lemma UnwatchedIff(t: Adapter, l: Label)
    requires Ok(t) && Enabled(t, l) && !Unwatched(t)
    ensures Unwatched(Next(t, l)) <==>
      && t.connectAttempt in t.starts
      && (l.Disconnect? || (BackgroundRejection(t, l) && l.attempt != t.connectAttempt))
  {
    hide ScheduleRetry, HandleClose;
    assert AttemptsOk(t);
    match l
    case StartRejects(a) => RetryKeepsAttempt(t.(starts := t.starts - {a}, watchdog := None));
    case SocketCloses(a, code) =>
      if a == t.connectAttempt { CloseLeavesWatched(t.(sockets := t.sockets - {a}), code); }
    case WatchdogFires => RetryKeepsAttempt(t.(watchdog := None, connectAttempt := t.connectAttempt + 1, sock := None));
    case FallEnds(_) => RetryKeepsAttempt(t.(falls := t.falls - 1));
    case _ =>
  }

  lemma RetryKeepsAttempt(t: Adapter)
    ensures var u := ScheduleRetry(t);
      u.watchdog == t.watchdog && u.connectAttempt == t.connectAttempt && u.starts == t.starts
  {
  }

  lemma CloseLeavesWatched(t: Adapter, code: Option<int>)
    requires t.connectAttempt !in t.starts
    ensures !Unwatched(HandleClose(t, code))
  {
  }

  /**
   And it happens: two attempts have failed and the third is being made when the
   second's late rejection spends a third retry and takes the live attempt's watchdog.
   */
  lemma LateRejectionSpendsTwice(maxAttempts: nat)
    requires maxAttempts >= 3
    ensures var labels := [Connect, StartResolves(1), SocketCloses(1, None), SleepEnds, WatchdogFires, SleepEnds];
      && Possible(Initial(maxAttempts), labels)
      && var t := Run(Initial(maxAttempts), labels);
         && t.retryAttempts == 2 && t.watchdog == Some(t.connectAttempt) && t.starts == map[2 := true, 4 := true]
         && Enabled(t, StartRejects(2))
         && var u := Next(t, StartRejects(2));
            u.retryAttempts == 3 && u.connectAttempt == 4 && Unwatched(u) && u.state.Connecting?
  {
    var labels := [Connect, StartResolves(1), SocketCloses(1, None), SleepEnds, WatchdogFires, SleepEnds];
    var t1 := Next(Initial(maxAttempts), Connect);
    assert t1.starts == map[1 := false];
    var t2 := Next(t1, StartResolves(1));
    assert t2.starts == map[] && t2.sockets == {1};
    var t3 := Next(t2, SocketCloses(1, None));
    var t4 := Next(t3, SleepEnds);
    assert t4.starts == map[2 := true];
    var t5 := Next(t4, WatchdogFires);
    var t6 := Next(t5, SleepEnds);
    RunTwo(Initial(maxAttempts), labels);
    RunTwo(t2, labels[2..]);
    RunTwo(t4, labels[4..]);
    assert Run(t6, []) == t6;
  }

  lemma RunTwo(t: Adapter, l: seq<Label>)
    requires |l| >= 2 && Enabled(t, l[0]) && Enabled(Next(t, l[0]), l[1])
    ensures var u := Next(Next(t, l[0]), l[1]);
      (Possible(t, l) <==> Possible(u, l[2..])) && (Possible(t, l) ==> Run(t, l) == Run(u, l[2..]))
  {
    hide Next, Enabled;
    assert l[1..][0] == l[1] && l[1..][1..] == l[2..];
  }
}
