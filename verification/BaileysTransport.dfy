/** The adapter as it is written: variables that event handlers and API calls update. */
module BaileysTransport {
  import opened Prelude
  import opened Transport

  class Baileys {
    const maxAttempts: nat
    var state: TransportState
    var sock: Option<nat>
    var intentionalClose: bool
    var forceRestart: bool
    var retryAttempts: nat
    var connectAttempt: nat
    var watchdogTimer: Option<nat>

    // What the event loop still holds for the adapter.
    var starts: map<nat, bool>
    var sleeps: nat
    var falls: nat
    var sockets: set<nat>
    ghost var backoffs: nat

    ghost function Abs(): Adapter
      reads this
    {
      Adapter(state, sock, intentionalClose, forceRestart, retryAttempts, connectAttempt, watchdogTimer, maxAttempts,
              starts, sleeps, falls, sockets, backoffs)
    }

    constructor (maxAttempts: nat)
      ensures Abs() == Initial(maxAttempts) && Ok(Abs())
    {
      this.maxAttempts := maxAttempts;
      state, sock, intentionalClose, forceRestart := Closed, None, false, false;
      retryAttempts, connectAttempt, watchdogTimer := 0, 0, None;
      starts, sleeps, falls, sockets, backoffs := map[], 0, 0, {}, 0;
    }

    method ClearWatchdog()
      modifies this`watchdogTimer
      ensures watchdogTimer.None?
    {
      watchdogTimer := None;
    }

    /** Up to its first await; the rest is OnStartResolved or OnStartRejected. */
    method StartSocket(background: bool)
      modifies this
      ensures Abs() == Transport.StartSocket(old(Abs()), background)
    {
      connectAttempt := connectAttempt + 1;
      state := Connecting;
      ClearWatchdog();
      watchdogTimer := Some(connectAttempt);
      starts := starts[connectAttempt := background];
    }

    method ScheduleRetry()
      modifies this
      ensures Abs() == Transport.ScheduleRetry(old(Abs()))
    {
      retryAttempts := retryAttempts + 1;
      if retryAttempts > maxAttempts {
        state := Closed;
        return;
      }
      sleeps, backoffs := sleeps + 1, backoffs + 1;
    }

    method HandleClose(statusCode: Option<int>)
      modifies this
      ensures Abs() == Transport.HandleClose(old(Abs()), statusCode)
    {
      ClearWatchdog();
      if intentionalClose {
        state := Closed;
        return;
      }
      if forceRestart {
        forceRestart := false;
        StartSocket(true);
        return;
      }
      match ClassifyDisconnect(statusCode) {
        case RePair => state := LoggedOut;
        case Restart => StartSocket(true);
        case VersionRejected => falls := falls + 1;
        case Retry => ScheduleRetry();
      }
    }

    method OnConnectTimeout(attempt: nat)
      requires watchdogTimer == Some(attempt) && Ok(Abs())
      modifies this
      ensures Abs() == Next(old(Abs()), WatchdogFires) && Ok(Abs())
    {
      OkStep(Abs(), WatchdogFires);
      if attempt != connectAttempt { return; }
      watchdogTimer := None;
      connectAttempt := connectAttempt + 1;
      sock := None;
      ScheduleRetry();
    }

    /** The socket exists: it is the attempt's, or nobody's when the attempt was superseded. */
    method OnStartResolved(attempt: nat)
      requires attempt in starts && Ok(Abs())
      modifies this
      ensures Abs() == Next(old(Abs()), StartResolves(attempt)) && Ok(Abs())
    {
      OkStep(Abs(), StartResolves(attempt));
      starts := starts - {attempt};
      if attempt != connectAttempt { return; }
      sock, sockets := Some(attempt), sockets + {attempt};
    }

    /** A background start owns its rejection; connect's caller owns the other kind. */
    method OnStartRejected(attempt: nat)
      requires attempt in starts && Ok(Abs())
      modifies this
      ensures Abs() == Next(old(Abs()), StartRejects(attempt)) && Ok(Abs())
    {
      OkStep(Abs(), StartRejects(attempt));
      var background := starts[attempt];
      starts := starts - {attempt};
      if background {
        ClearWatchdog();
        if intentionalClose { return; }
        ScheduleRetry();
      }
    }

    method OnOpen(attempt: nat)
      requires attempt in sockets && Ok(Abs())
      modifies this
      ensures Abs() == Next(old(Abs()), SocketOpens(attempt)) && Ok(Abs())
    {
      OkStep(Abs(), SocketOpens(attempt));
      if attempt != connectAttempt { return; }
      ClearWatchdog();
      retryAttempts, backoffs := 0, 0;
      state := Open;
    }

    method OnClose(attempt: nat, statusCode: Option<int>)
      requires attempt in sockets && Ok(Abs())
      modifies this
      ensures Abs() == Next(old(Abs()), SocketCloses(attempt, statusCode)) && Ok(Abs())
    {
      OkStep(Abs(), SocketCloses(attempt, statusCode));
      sockets := sockets - {attempt};
      if attempt != connectAttempt { return; }
      HandleClose(statusCode);
    }

    method OnSleepEnd()
      requires sleeps > 0 && Ok(Abs())
      modifies this
      ensures Abs() == Next(old(Abs()), SleepEnds) && Ok(Abs())
    {
      OkStep(Abs(), SleepEnds);
      sleeps := sleeps - 1;
      if intentionalClose { return; }
      StartSocket(true);
    }

    method OnFallForward(adopted: bool)
      requires falls > 0 && Ok(Abs())
      modifies this
      ensures Abs() == Next(old(Abs()), FallEnds(adopted)) && Ok(Abs())
    {
      OkStep(Abs(), FallEnds(adopted));
      falls := falls - 1;
      if intentionalClose { return; }
      if adopted {
        retryAttempts, backoffs := 0, 0;
        StartSocket(true);
        return;
      }
      ScheduleRetry();
    }

    method Connect()
      requires Ok(Abs())
      modifies this
      ensures Abs() == Next(old(Abs()), Label.Connect) && Ok(Abs())
    {
      OkStep(Abs(), Label.Connect);
      intentionalClose := false;
      StartSocket(false);
    }

    method ForceReconnect()
      requires Ok(Abs())
      modifies this
      ensures Abs() == Next(old(Abs()), Label.ForceReconnect) && Ok(Abs())
    {
      OkStep(Abs(), Label.ForceReconnect);
      forceRestart := true;
    }

    method Disconnect()
      requires Ok(Abs())
      modifies this
      ensures Abs() == Next(old(Abs()), Label.Disconnect) && Ok(Abs())
    {
      OkStep(Abs(), Label.Disconnect);
      intentionalClose := true;
      ClearWatchdog();
      state := Closed;
    }
  }
}
