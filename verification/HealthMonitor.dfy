/** The health monitor as it is written: three variables, a timer, and the alert channel. */
module HealthMonitor {
  import opened Prelude
  import opened T = Transport
  import Health

  class Monitor {
    const downGraceMs: int
    var graceTimer: Option<int>
    var downAlertSent: bool
    var stopped: bool
    ghost var history: seq<Health.Change>
    ghost var now: int
    var alerts: seq<Health.AlertKind>
    ghost var sent: seq<Health.Alert>

    constructor (downGraceMs: int, ghost now: int)
      ensures Abs() == Health.Initial(now) && Valid() && this.downGraceMs == downGraceMs
    {
      this.downGraceMs := downGraceMs;
      graceTimer, downAlertSent, stopped, alerts := None, false, false, [];
      history, this.now, sent := [], now, [];
    }

    ghost function Abs(): Health.Monitor
      reads this
    {
      Health.Monitor.Monitor(graceTimer, downAlertSent, stopped, history, sent, now)
    }

    /** The texts sent are those of the alerts the history records. */
    ghost predicate Valid()
      reads this
    {
      |alerts| == |sent| && forall i :: 0 <= i < |alerts| ==> alerts[i] == sent[i].kind
    }

    method SendAlert(kind: Health.AlertKind)
      requires Valid()
      modifies this`alerts, this`sent
      ensures Valid() && Abs() == Health.Send(old(Abs()), kind)
    {
      alerts := alerts + [kind];
      sent := sent + [Health.Alert.Alert(kind, now, |history|)];
    }

    method OnStateChange(time: int, state: TransportState)
      requires Valid()
      modifies this
      ensures Valid() && Abs() == Health.OnStateChange(old(Abs()), time, state, downGraceMs)
    {
      now := time;
      if stopped { return; }
      history := history + [Health.Change.Change(time, state)];
      match state {
        case Open =>
          graceTimer := None;
          if downAlertSent {
            downAlertSent := false;
            SendAlert(Health.Reconnected);
          }
        case LoggedOut =>
          graceTimer := None;
          if !downAlertSent {
            downAlertSent := true;
            SendAlert(Health.LoggedOutAlert);
          }
        case _ =>
          if graceTimer.Some? || downAlertSent { return; }
          graceTimer := Some(time + downGraceMs);
      }
    }

    method OnGraceEnd()
      requires Valid() && graceTimer.Some?
      modifies this
      ensures Valid() && Abs() == Health.Next(old(Abs()), Health.GraceEnds, downGraceMs)
    {
      now := graceTimer.value;
      graceTimer := None;
      downAlertSent := true;
      SendAlert(Health.Down);
    }

    method Stop(time: int)
      requires Valid() && Health.Reaches(Abs(), time)
      modifies this
      ensures Valid() && Abs() == Health.Next(old(Abs()), Health.Stop(time), downGraceMs)
    {
      now := time;
      stopped := true;
      graceTimer := None;
    }
  }
}
