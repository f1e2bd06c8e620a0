/** What each close code, and each other event, does to the adapter; and why it is ever logged out. */
module Disconnects {
  import opened Prelude
  import opened Transport

  /** A retry is paid for: one sleep and one of the budget, or the adapter is down for good. */
  predicate Pays(t: Adapter, u: Adapter) {
    && u.retryAttempts == t.retryAttempts + 1 && u.starts == t.starts && u.falls == t.falls && u.connectAttempt == t.connectAttempt
    && (if t.retryAttempts < t.maxAttempts then u.sleeps == t.sleeps + 1 && u.state == t.state
        else u.sleeps == t.sleeps && u.state.Closed?)
  }

  /** A new attempt in the background at no cost. */
  predicate StartsFree(t: Adapter, u: Adapter) {
    && u.retryAttempts == t.retryAttempts && u.sleeps == t.sleeps && u.falls == t.falls
    && u.connectAttempt == t.connectAttempt + 1 && u.starts == t.starts[u.connectAttempt := true]
    && u.state.Connecting? && u.watchdog == Some(u.connectAttempt)
  }

  /** No attempt is made or due from it. */
  predicate Settles(t: Adapter, u: Adapter) {
    && u.retryAttempts == t.retryAttempts && u.sleeps == t.sleeps && u.falls == t.falls
    && u.starts == t.starts && u.connectAttempt == t.connectAttempt
  }

  /**
   A current attempt's close, by its code: 401 logs out and leaves nothing due, 405
   goes to look for another version at no cost and without logging out, 515 starts
   again at no cost, and any other code, or none, pays for a retry.  An intentional
   close comes before all of them, and a forced restart before the code is looked at.
   */
  lemma CloseByCode(t: Adapter, code: Option<int>)
    requires t.connectAttempt in t.sockets
    ensures var u := Next(t, SocketCloses(t.connectAttempt, code));
      && u.sockets == t.sockets - {t.connectAttempt} && u.intentionalClose == t.intentionalClose
      && (t.intentionalClose ==> Settles(t, u) && u.state.Closed? && u.watchdog.None? && u.forceRestart == t.forceRestart)
      && (!t.intentionalClose && t.forceRestart ==> StartsFree(t, u) && !u.forceRestart)
      && (!t.intentionalClose && !t.forceRestart ==>
            && !u.forceRestart
            && (code == Some(401) ==> Settles(t, u) && u.state.LoggedOut? && u.watchdog.None?)
            && (code == Some(405) ==>
                  Settles(t, u.(falls := t.falls)) && u.falls == t.falls + 1 && u.state == t.state && u.watchdog.None?)
            && (code == Some(515) ==> StartsFree(t, u))
            && (code !in {Some(401), Some(405), Some(515)} ==> Pays(t, u) && u.watchdog.None?))
  {
  }

  /**
   The other events: an open resets the budget, an adopted version resets it and starts
   at once, a version that did not change, a rejected background start and a silent
   attempt pay for a retry, a sleep that ends starts again at no further cost; and
   under an intentional close none of them starts or pays for anything.
   */
  lemma EventsByKind(t: Adapter, l: Label)
    requires Ok(t) && Enabled(t, l)
    ensures var u := Next(t, l);
      match l
      case SocketOpens(a) => a == t.connectAttempt ==> u == t.(state := Open, retryAttempts := 0, backoffs := 0, watchdog := None)
      case FallEnds(adopted) =>
        var t1 := t.(falls := t.falls - 1);
        if t.intentionalClose then u == t1
        else if adopted then StartsFree(t1.(retryAttempts := 0), u)
        else Pays(t1, u)
      case SleepEnds => if t.intentionalClose then u == t.(sleeps := t.sleeps - 1) else StartsFree(t.(sleeps := t.sleeps - 1), u)
      case WatchdogFires => Pays(t.(connectAttempt := t.connectAttempt + 1), u) && u.watchdog.None? && u.sock.None?
      case StartRejects(a) =>
        var t1 := t.(starts := t.starts - {a});
        if !t.starts[a] then u == t1
        else if t.intentionalClose then u == t1.(watchdog := None)
        else Pays(t1, u) && u.watchdog.None?
      case StartResolves(a) => a == t.connectAttempt ==> u == t.(starts := t.starts - {a}, sock := Some(a), sockets := t.sockets + {a})
      case Connect => !u.intentionalClose && u.starts == t.starts[t.connectAttempt + 1 := false] && u.state.Connecting?
      case Disconnect => Settles(t, u) && u.intentionalClose && u.state.Closed? && u.watchdog.None?
      case ForceReconnect => u == t.(forceRestart := true)
      case SocketCloses(_, _) => true
  {
    hide HandleClose;
  }

  // ----- Logged out -----

  /** The event is a close that the adapter handles. */
  predicate HandledClose(t: Adapter, l: Label) {
    l.SocketCloses? && l.attempt == t.connectAttempt
  }

  /** The code of the last close that was handled in a run, if any was; `before` is the one known at its start. */
  function LastClose(t: Adapter, labels: seq<Label>, before: Option<Option<int>>): Option<Option<int>>
    requires Possible(t, labels)
    decreases |labels|
  {
    if labels == [] then before
    else LastClose(Next(t, labels[0]), labels[1..], if HandledClose(t, labels[0]) then Some(labels[0].statusCode) else before)
  }

  /** Exactly when an event logs the adapter out. */
  lemma LogsOutIff(t: Adapter, l: Label)
    requires Enabled(t, l) && !t.state.LoggedOut?
    ensures Next(t, l).state.LoggedOut? <==>
      HandledClose(t, l) && l.statusCode == Some(401) && !t.intentionalClose && !t.forceRestart
  {
  }

  /** Nothing of the current attempt is left that could close or resolve. */
  predicate Ended(t: Adapter) {
    t.connectAttempt !in t.sockets && t.connectAttempt !in t.starts
  }

  lemma EndedStep(t: Adapter, l: Label)
    requires Ok(t) && Enabled(t, l) && (t.state.LoggedOut? ==> Ended(t))
    ensures Next(t, l).state.LoggedOut? ==> Ended(Next(t, l))
  {
  }

  lemma {:induction false} LoggedOutRun(t: Adapter, labels: seq<Label>, before: Option<Option<int>>)
    requires Ok(t) && Possible(t, labels) && (t.state.LoggedOut? ==> before == Some(Some(401)) && Ended(t))
    ensures Run(t, labels).state.LoggedOut? ==> LastClose(t, labels, before) == Some(Some(401))
    decreases |labels|
  {
    if labels != [] {
      var l := labels[0];
      OkStep(t, l);
      EndedStep(t, l);
      if !t.state.LoggedOut? { LogsOutIff(t, l); }
      hide Next, Ok, Enabled;
      LoggedOutRun(Next(t, l), labels[1..], if HandledClose(t, l) then Some(l.statusCode) else before);
    }
  }

  /** In every run from a fresh adapter: it is logged out only if the last close it handled carried 401. */
  lemma LoggedOutMeans401(maxAttempts: nat, labels: seq<Label>)
    requires Possible(Initial(maxAttempts), labels)
    ensures Run(Initial(maxAttempts), labels).state.LoggedOut? ==> LastClose(Initial(maxAttempts), labels, None) == Some(Some(401))
  {
    LoggedOutRun(Initial(maxAttempts), labels, None);
  }
}
