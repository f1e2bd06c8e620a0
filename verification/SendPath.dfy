/** The send path as it is written: the resilient loop around a raw send, and deliverReply over the send log. */
module SendPath {
  import opened Prelude
  import opened Delivery

  datatype ResilientConfig = ResilientConfig(maxElapsedMs: real, baseDelayMs: real, backoffRate: real, maxDelayMs: real)

  const DefaultResilient := ResilientConfig(300000.0, 500.0, 2.0, 5000.0)

  function Min(x: real, y: real): real {
    if x <= y then x else y
  }

  function Power(rate: real, n: nat): real {
    if n == 0 then 1.0 else rate * Power(rate, n - 1)
  }

  /** The n-th backoff: exponential, capped. */
  function Delay(cfg: ResilientConfig, n: nat): real {
    Min(cfg.baseDelayMs * Power(cfg.backoffRate, n), cfg.maxDelayMs)
  }

  /** The backoff after one of `delay`. */
  function Backoff(cfg: ResilientConfig, delay: real): real {
    Min(delay * cfg.backoffRate, cfg.maxDelayMs)
  }

  /** What the first n backoffs sum up to. */
  function Slept(cfg: ResilientConfig, n: nat): real {
    if n == 0 then 0.0 else Slept(cfg, n - 1) + Delay(cfg, n - 1)
  }

  predicate Sane(cfg: ResilientConfig) {
    1.0 <= cfg.baseDelayMs <= cfg.maxDelayMs && 1.0 <= cfg.backoffRate
  }

  lemma {:induction false} PowerGrows(rate: real, n: nat)
    requires 1.0 <= rate
    ensures 1.0 <= Power(rate, n)
  {
    if n > 0 { PowerGrows(rate, n - 1); }
  }

  lemma Times(x: real, y: real)
    requires 0.0 <= x && 1.0 <= y
    ensures x <= x * y
  {
    assert x * y == x + x * (y - 1.0);
  }

  /** Growing a capped delay and capping again is capping the grown delay: the cap never has to be undone. */
  lemma CapCommutes(x: real, rate: real, cap: real)
    requires 0.0 <= x && 1.0 <= rate && 0.0 <= cap
    ensures Min(Min(x, cap) * rate, cap) == Min(x * rate, cap)
  {
    Times(x, rate);
    Times(cap, rate);
  }

  lemma Associates(x: real, p: real, r: real)
    ensures x * p * r == x * (r * p)
  {
  }

  /** One more retry: the loop's next delay is the next of the closed form. */
  lemma NextDelay(cfg: ResilientConfig, n: nat)
    requires Sane(cfg)
    ensures Backoff(cfg, Delay(cfg, n)) == Delay(cfg, n + 1)
    ensures 1.0 <= Delay(cfg, n) <= cfg.maxDelayMs && Slept(cfg, n + 1) == Slept(cfg, n) + Delay(cfg, n)
  {
    var p := Power(cfg.backoffRate, n);
    PowerGrows(cfg.backoffRate, n);
    Times(cfg.baseDelayMs, p);
    CapCommutes(cfg.baseDelayMs * p, cfg.backoffRate, cfg.maxDelayMs);
    Associates(cfg.baseDelayMs, p, cfg.backoffRate);
  }

  lemma FirstDelay(cfg: ResilientConfig)
    requires Sane(cfg)
    ensures Delay(cfg, 0) == cfg.baseDelayMs && Slept(cfg, 0) == 0.0
  {
    assert cfg.baseDelayMs * Power(cfg.backoffRate, 0) == cfg.baseDelayMs;
  }

  /** Every backoff is at least a millisecond, so the budget bounds the retries. */
  lemma {:induction false} RetriesBounded(cfg: ResilientConfig, n: nat)
    requires Sane(cfg)
    ensures n as real <= Slept(cfg, n)
    ensures Slept(cfg, n) < cfg.maxElapsedMs ==> n <= cfg.maxElapsedMs.Floor
  {
    if n > 0 {
      RetriesBounded(cfg, n - 1);
      NextDelay(cfg, n - 1);
      assert n as real == (n - 1) as real + 1.0;
    }
  }

  /**
   Retries while the transport is disconnected, until the sum of its backoffs
   reaches the budget.  `outcomes(k)` is what the k-th call of the raw send does,
   counted from zero.
   */
  method ResilientSend(cfg: ResilientConfig, outcomes: nat -> SendOutcome)
    returns (r: SendOutcome, attempts: nat, sleeps: seq<real>)
    requires Sane(cfg)
    ensures attempts >= 1 && r == outcomes(attempts - 1)
    ensures forall k :: 0 <= k < attempts - 1 ==> outcomes(k).NotConnected? && Slept(cfg, k) < cfg.maxElapsedMs
    ensures r.NotConnected? ==> Slept(cfg, attempts - 1) >= cfg.maxElapsedMs
    ensures |sleeps| == attempts - 1 && forall k :: 0 <= k < |sleeps| ==> sleeps[k] == Delay(cfg, k)
    ensures attempts > 1 ==> Slept(cfg, attempts - 1) < cfg.maxElapsedMs + cfg.maxDelayMs
  {
    hide *;
    FirstDelay(cfg);
    var delay := cfg.baseDelayMs;
    var elapsedMs := 0.0;
    attempts, sleeps := 1, [];
    while true
      invariant attempts >= 1 && |sleeps| == attempts - 1
      invariant delay == Delay(cfg, attempts - 1) && elapsedMs == Slept(cfg, attempts - 1)
      invariant forall k :: 0 <= k < attempts - 1 ==> outcomes(k).NotConnected? && Slept(cfg, k) < cfg.maxElapsedMs
      invariant forall k :: 0 <= k < |sleeps| ==> sleeps[k] == Delay(cfg, k)
      invariant attempts > 1 ==> elapsedMs < cfg.maxElapsedMs + cfg.maxDelayMs
      decreases cfg.maxElapsedMs.Floor + 1 - attempts
    {
      r := outcomes(attempts - 1);
      if !r.NotConnected? || elapsedMs >= cfg.maxElapsedMs { return; }
      NextDelay(cfg, attempts - 1);
      RetriesBounded(cfg, attempts - 1);
      sleeps := sleeps + [delay];
      elapsedMs := elapsedMs + delay;
      delay := Backoff(cfg, delay);
      attempts := attempts + 1;
    }
  }

  /** From the fifth on, the production backoffs are the cap. */
  lemma {:induction false} DefaultSlept(n: nat)
    requires n >= 4
    ensures Power(2.0, n) >= 16.0
    ensures Slept(DefaultResilient, n) == 7500.0 + 5000.0 * (n - 4) as real
  {
    if n == 4 {
      assert Power(2.0, 1) == 2.0 && Power(2.0, 2) == 4.0 && Power(2.0, 3) == 8.0;
      assert Power(2.0, 4) == 2.0 * Power(2.0, 3);
      assert Delay(DefaultResilient, 0) == 500.0 && Delay(DefaultResilient, 1) == 1000.0;
      assert Delay(DefaultResilient, 2) == 2000.0 && Delay(DefaultResilient, 3) == 4000.0;
      assert Slept(DefaultResilient, 2) == 1500.0;
      assert Slept(DefaultResilient, 3) == 3500.0;
    } else {
      DefaultSlept(n - 1);
      assert Delay(DefaultResilient, n - 1) == 5000.0;
      assert Slept(DefaultResilient, n) == Slept(DefaultResilient, n - 1) + 5000.0;
      assert ((n - 1) - 4) as real + 1.0 == (n - 4) as real;
    }
  }

  lemma AtMost64(attempts: nat)
    requires forall k :: 0 <= k < attempts - 1 ==> Slept(DefaultResilient, k) < 300000.0
    ensures attempts <= 64
  {
    DefaultSlept(63);
    var k: nat := 63;
    assert k < attempts - 1 ==> Slept(DefaultResilient, k) < 300000.0;
  }

  /** The production send gives up on exactly its 64th disconnected answer, after 302500 ms. */
  method DefaultGivesUp(outcomes: nat -> SendOutcome) returns (r: SendOutcome, attempts: nat, sleeps: seq<real>)
    ensures attempts <= 64
    ensures (forall k :: 0 <= k < 64 ==> outcomes(k).NotConnected?) <==> r.NotConnected?
    ensures r.NotConnected? ==> attempts == 64 && Slept(DefaultResilient, 63) == 302500.0
    ensures !r.NotConnected? ==> attempts >= 1 && r == outcomes(attempts - 1) && forall k :: 0 <= k < attempts - 1 ==> outcomes(k).NotConnected?
  {
    assert Sane(DefaultResilient) && DefaultResilient.maxElapsedMs == 300000.0;
    SleptAt63();
    hide *;
    r, attempts, sleeps := ResilientSend(DefaultResilient, outcomes);
    AtMost64(attempts);
    if attempts <= 63 { EarlyIsBelow(attempts - 1); }
  }

  lemma SleptAt63()
    ensures Slept(DefaultResilient, 63) == 302500.0
  {
    DefaultSlept(63);
  }

  lemma EarlyIsBelow(n: nat)
    requires n <= 62
    ensures Slept(DefaultResilient, n) < 300000.0
  {
    DefaultSlept(62);
    SleptGrows(n, 62);
  }

  lemma {:induction false} SleptGrows(n: nat, m: nat)
    requires n <= m
    ensures Slept(DefaultResilient, n) <= Slept(DefaultResilient, m)
    decreases m - n
  {
    if n < m {
      NextDelay(DefaultResilient, n);
      SleptGrows(n + 1, m);
    }
  }

  // ----- deliverReply over the send log -----

  class SentLog {
    var rows: set<string>

    /** Insert-if-absent: true only for the call that wrote the row. */
    method RecordSend(key: string) returns (won: bool)
      modifies this
      ensures won == (key !in old(rows)) && rows == old(rows) + {key}
    {
      won := key !in rows;
      rows := rows + {key};
    }

    method GetSentEntry(key: string) returns (found: bool)
      ensures found == (key in rows)
    {
      found := key in rows;
    }
  }

  datatype Outcome = Sent | Skipped | DeadLettered | Threw

  /**
   One uninterrupted attempt.  `outcome` is what the resilient send ends in when it
   is called; `sends` says whether it was.
   */
  method DeliverReply(log: SentLog, sendClass: DeliveryClass, key: string, outcome: SendOutcome)
    returns (r: Outcome, sends: bool)
    modifies log
    ensures sends == (key !in old(log.rows))
    ensures r == if !sends then Skipped else match outcome
      case Delivered(_) => Sent
      case Unroutable => if sendClass.AtLeastOnce? then DeadLettered else Threw
      case _ => Threw
    ensures log.rows == if sends && (sendClass.AtMostOnce? || outcome.Delivered?) then old(log.rows) + {key} else old(log.rows)
  {
    sends := false;
    if sendClass.AtMostOnce? {
      var won := log.RecordSend(key);
      if !won {
        assert log.rows == old(log.rows);
        return Skipped, false;
      }
      sends := true;
      if !outcome.Delivered? { return Threw, true; }
      return Sent, true;
    }
    var found := log.GetSentEntry(key);
    if found { return Skipped, false; }
    sends := true;
    if outcome.Unroutable? { return DeadLettered, true; }
    if !outcome.Delivered? { return Threw, true; }
    var _ := log.RecordSend(key);
    return Sent, true;
  }

  /** The steps of one attempt that nothing interrupts. */
  function Uninterrupted(cfg: Config, a: nat, open: bool, answer: WireAnswer): seq<Label> {
    match cfg.sendClass
    case AtMostOnce => [Begin(a), Claim(a), TrySend(a, open, answer)]
    case AtLeastOnce => [Begin(a), Check(a), TrySend(a, open, answer), Log(a), DeadLetter(a)]
  }

  lemma RunThree(cfg: Config, s: State, l: seq<Label>)
    requires |l| == 3
    ensures Run(cfg, s, l) == Next(cfg, Next(cfg, Next(cfg, s, l[0]), l[1]), l[2])
  {
    hide Next;
    var s1 := Next(cfg, s, l[0]);
    var s2 := Next(cfg, s1, l[1]);
    assert l[1..][0] == l[1] && l[1..][1..] == l[2..] && l[2..] == [l[2]] && l[2..][1..] == [];
    assert Run(cfg, s, l) == Run(cfg, s1, l[1..]);
    assert Run(cfg, s1, l[1..]) == Run(cfg, s2, l[2..]);
    assert Run(cfg, s2, l[2..]) == Run(cfg, Next(cfg, s2, l[2]), []);
  }

  lemma RunFive(cfg: Config, s: State, l: seq<Label>)
    requires |l| == 5
    ensures Run(cfg, s, l) == Next(cfg, Next(cfg, Next(cfg, Next(cfg, Next(cfg, s, l[0]), l[1]), l[2]), l[3]), l[4])
  {
    hide Next;
    assert l[1..][1..] == l[2..] && l[1..][0] == l[1];
    assert Run(cfg, s, l) == Run(cfg, Next(cfg, s, l[0]), l[1..]);
    assert Run(cfg, Next(cfg, s, l[0]), l[1..]) == Run(cfg, Next(cfg, Next(cfg, s, l[0]), l[1]), l[2..]);
    assert l[2..][0] == l[2] && l[2..][1] == l[3] && l[2..][2] == l[4];
    RunThree(cfg, Next(cfg, Next(cfg, s, l[0]), l[1]), l[2..]);
  }

  /** What `DeliverReply` does to the log and the wire is what the attempt's steps do. */
  lemma DeliverReplyIsItsSteps(cfg: Config, s: State, a: nat, open: bool, answer: WireAnswer)
    requires s.attempts == map[] && !s.completed
    ensures var t := Run(cfg, s, Uninterrupted(cfg, a, open, answer));
      var o := Send(open, cfg.jid, answer);
      && t.logged == (s.logged || cfg.sendClass.AtMostOnce? || o.Delivered?)
      && t.wire == s.wire + (if !s.logged && OnWire(o) then 1 else 0)
      && t.deadLettered == s.deadLettered + (if !s.logged && o.Unroutable? && cfg.sendClass.AtLeastOnce? then 1 else 0)
  {
    var labels := Uninterrupted(cfg, a, open, answer);
    if cfg.sendClass.AtMostOnce? { RunThree(cfg, s, labels); } else { RunFive(cfg, s, labels); }
    hide Run;
  }
}
