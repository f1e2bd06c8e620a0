/**
 Send classes.  One outbound text has a key; attempts to deliver it come and go
 with crashes and replays, and only the send log survives them.
 */
module Delivery {
  import opened Prelude
  import opened Debounce

  datatype DeliveryClass = AtMostOnce | AtLeastOnce

  /** The class comes from the inbox row that leads the turn. */
  function SelectSendClass(subject: Item): DeliveryClass {
    if subject.kind.Proactive? && subject.sender == "system" then AtLeastOnce else AtMostOnce
  }

  function ReplySendId(lead: Item): string {
    "send-" + lead.messageId
  }

  function ApprovalSendId(actionId: string): string {
    "approval-" + actionId
  }

  /** In an inbox with one row per message id, a reply key names one lead, so it always has the same class. */
  lemma KeyFixesClass(inbox: seq<Item>, i: nat, j: nat)
    requires forall a, b :: 0 <= a < b < |inbox| ==> inbox[a].messageId != inbox[b].messageId
    requires i < |inbox| && j < |inbox| && ReplySendId(inbox[i]) == ReplySendId(inbox[j])
    ensures SelectSendClass(inbox[i]) == SelectSendClass(inbox[j])
  {
    assert ReplySendId(inbox[i])[5..] == inbox[i].messageId;
    assert ReplySendId(inbox[j])[5..] == inbox[j].messageId;
  }

  /** A reply's key is never an approval prompt's, and keys of different actions differ. */
  lemma KeysApart(lead: Item, a: string, b: string)
    ensures ReplySendId(lead) != ApprovalSendId(a)
    ensures ApprovalSendId(a) == ApprovalSendId(b) ==> a == b
  {
    assert ReplySendId(lead)[0] == 's' && ApprovalSendId(a)[0] == 'a';
    assert ApprovalSendId(a)[9..] == a && ApprovalSendId(b)[9..] == b;
  }

  // ----- Destinations -----

  /** The index of the first '@', or -1. */
  function IndexOfAt(jid: string): (i: int)
    ensures -1 <= i < |jid| && (i >= 0 ==> jid[i] == '@') && forall k :: 0 <= k < (if i < 0 then |jid| else i) ==> jid[k] != '@'
  {
    if jid == "" then -1
    else if jid[0] == '@' then 0
    else
      var rest := IndexOfAt(jid[1..]);
      if rest < 0 then -1 else rest + 1
  }

  predicate IsUnroutableDestination(jid: string) {
    var at := IndexOfAt(jid);
    at <= 0 || at == |jid| - 1
  }

  ghost predicate UserAtServer(jid: string) {
    exists user: string, server: string :: user != "" && server != "" && '@' !in user && jid == user + "@" + server
  }

  /** Routable means user@server with both halves. */
  lemma RoutableIsUserAtServer(jid: string)
    ensures !IsUnroutableDestination(jid) <==> UserAtServer(jid)
  {
    var at := IndexOfAt(jid);
    if !IsUnroutableDestination(jid) {
      var user, server := jid[..at], jid[at + 1..];
      assert jid == user + "@" + server;
    }
    if UserAtServer(jid) {
      var user: string, server: string :| user != "" && server != "" && '@' !in user && jid == user + "@" + server;
      assert jid[|user|] == '@';
      assert forall k :: 0 <= k < |user| ==> jid[k] == user[k];
      assert at == |user|;
    }
  }

  // ----- One call of the transport's send -----

  /** `Failed` is any other error; the text may have left before it. */
  datatype SendOutcome = Delivered(messageId: string) | NotConnected | Unroutable | Failed(onWire: bool)

  /** What the socket does with a text handed to it: a receipt, or an error before or after the text left. */
  datatype WireAnswer = Receipt(messageId: string) | WireError(left: bool)

  function Send(open: bool, jid: string, wire: WireAnswer): SendOutcome {
    if !open then NotConnected
    else if IsUnroutableDestination(jid) then Unroutable
    else match wire
      case Receipt(id) => if id == "" then Failed(true) else Delivered(id)
      case WireError(left) => Failed(left)
  }

  predicate OnWire(o: SendOutcome) {
    o.Delivered? || (o.Failed? && o.onWire)
  }

  /**
   What a send says of the wire: disconnected exactly when the transport is not open,
   unroutable exactly when it is and the destination lacks a half, delivered exactly
   when the socket gave a receipt with an id; and only an outcome that is neither of
   the first two can have put the text on the wire, a receipt always.
   */
  lemma SendIsHonest(open: bool, jid: string, wire: WireAnswer)
    ensures var o := Send(open, jid, wire);
      && (o.NotConnected? <==> !open) && (o.Unroutable? <==> open && !UserAtServer(jid))
      && (forall id :: o == Delivered(id) <==> open && UserAtServer(jid) && wire == Receipt(id) && id != "")
      && (OnWire(o) <==> open && UserAtServer(jid) && (wire.Receipt? || wire.left))
  {
    RoutableIsUserAtServer(jid);
  }

  // ----- Attempts, crashes and replays -----

  datatype Phase = Claiming | Checking | Sending | Logging | DeadLettering | Returning

  /**
   `logged` is the key's row in the send log; `wire` counts the texts that left.
   `lost` counts the attempts that ended after the wire but before the log row.
   */
  datatype State = State(logged: bool, attempts: map<nat, Phase>, wire: nat, deadLettered: nat, lost: nat, completed: bool)

  const Initial := State(false, map[], 0, 0, 0, false)

  /** `serial`: a step's attempts come one after the other, as the replays of one workflow do. */
  datatype Config = Config(sendClass: DeliveryClass, jid: string, serial: bool)

  datatype Label =
    | Begin(a: nat)
    | Claim(a: nat)
    | Check(a: nat)
    | TrySend(a: nat, open: bool, answer: WireAnswer)
    | GiveUp(a: nat)
    | Log(a: nat)
    | DeadLetter(a: nat)
    | Return(a: nat)
    | Crash(a: nat)

  function End(s: State, a: nat): State {
    s.(attempts := s.attempts - {a})
  }

  function To(s: State, a: nat, phase: Phase): State {
    s.(attempts := s.attempts[a := phase])
  }

  function AfterSend(cfg: Config, s: State, a: nat, o: SendOutcome): State {
    var s1 := if OnWire(o) then s.(wire := s.wire + 1) else s;
    match o
    case Delivered(_) => To(s1, a, if cfg.sendClass.AtMostOnce? then Returning else Logging)
    case NotConnected => s1
    case Unroutable => if cfg.sendClass.AtMostOnce? then End(s1, a) else To(s1, a, DeadLettering)
    case Failed(onWire) => End(if onWire then s1.(lost := s.lost + 1) else s1, a)
  }

  function Next(cfg: Config, s: State, l: Label): State {
    match l
    case Begin(a) =>
      if a in s.attempts || s.completed || (cfg.serial && s.attempts != map[]) then s
      else To(s, a, if cfg.sendClass.AtMostOnce? then Claiming else Checking)
    case Claim(a) =>
      if a in s.attempts && s.attempts[a].Claiming? then To(s.(logged := true), a, if s.logged then Returning else Sending) else s
    case Check(a) =>
      if a in s.attempts && s.attempts[a].Checking? then To(s, a, if s.logged then Returning else Sending) else s
    case TrySend(a, open, answer) =>
      if a in s.attempts && s.attempts[a].Sending? then AfterSend(cfg, s, a, Send(open, cfg.jid, answer)) else s
    case GiveUp(a) =>
      if a in s.attempts && s.attempts[a].Sending? then End(s, a) else s
    case Log(a) =>
      if a in s.attempts && s.attempts[a].Logging? then To(s.(logged := true), a, Returning) else s
    case DeadLetter(a) =>
      if a in s.attempts && s.attempts[a].DeadLettering? then To(s.(deadLettered := s.deadLettered + 1), a, Returning) else s
    case Return(a) =>
      if a in s.attempts && s.attempts[a].Returning? then End(s, a).(completed := true) else s
    case Crash(a) =>
      if a in s.attempts then End(if s.attempts[a].Logging? then s.(lost := s.lost + 1) else s, a) else s
  }

  function Run(cfg: Config, s: State, labels: seq<Label>): State
    decreases |labels|
  {
    if labels == [] then s else Run(cfg, Next(cfg, s, labels[0]), labels[1..])
  }

  // ----- At most once -----

  ghost predicate OneWinner(s: State) {
    && (forall a :: a in s.attempts ==> s.attempts[a].Claiming? || s.attempts[a].Sending? || s.attempts[a].Returning?)
    && (forall a, b :: a in s.attempts && b in s.attempts && s.attempts[a].Sending? && s.attempts[b].Sending? ==> a == b)
    && ((exists a :: a in s.attempts && s.attempts[a].Sending?) ==> s.logged && s.wire == 0)
    && s.wire <= 1 && (s.wire > 0 ==> s.logged)
  }

  lemma OneWinnerStep(cfg: Config, s: State, l: Label)
    requires cfg.sendClass.AtMostOnce? && OneWinner(s)
    ensures OneWinner(Next(cfg, s, l))
  {
  }

  /**
   A text of the at-most-once class leaves at most once, even when attempts overlap,
   crash, or retry a disconnected transport as often as they like.
   */
  lemma {:induction false} AtMostOneSend(cfg: Config, s: State, labels: seq<Label>)
    requires cfg.sendClass.AtMostOnce? && OneWinner(s)
    ensures Run(cfg, s, labels).wire <= 1 && OneWinner(Run(cfg, s, labels))
    decreases |labels|
  {
    if labels != [] {
      OneWinnerStep(cfg, s, labels[0]);
      AtMostOneSend(cfg, Next(cfg, s, labels[0]), labels[1..]);
    }
  }

  // ----- At least once -----

  ghost predicate Delivers(cfg: Config, s: State) {
    && (s.logged ==> s.wire > 0)
    && (s.deadLettered > 0 ==> IsUnroutableDestination(cfg.jid))
    && (s.completed ==> s.wire > 0 || s.deadLettered > 0)
    && (forall a :: a in s.attempts ==>
          && !s.attempts[a].Claiming?
          && (s.attempts[a].Logging? ==> s.wire > 0)
          && (s.attempts[a].DeadLettering? ==> IsUnroutableDestination(cfg.jid))
          && (s.attempts[a].Returning? ==> s.wire > 0 || s.deadLettered > 0))
  }

  lemma DeliversStep(cfg: Config, s: State, l: Label)
    requires cfg.sendClass.AtLeastOnce? && Delivers(cfg, s)
    ensures Delivers(cfg, Next(cfg, s, l))
  {
  }

  /**
   A completed at-least-once step's text has left, unless its destination can never
   be reached and it was dead-lettered.
   */
  lemma {:induction false} CompletedWasSent(cfg: Config, s: State, labels: seq<Label>)
    requires cfg.sendClass.AtLeastOnce? && Delivers(cfg, s)
    ensures var t := Run(cfg, s, labels);
      && Delivers(cfg, t)
      && (t.completed ==> t.wire > 0 || (t.deadLettered > 0 && IsUnroutableDestination(cfg.jid)))
    decreases |labels|
  {
    if labels != [] {
      DeliversStep(cfg, s, labels[0]);
      CompletedWasSent(cfg, Next(cfg, s, labels[0]), labels[1..]);
    }
  }

  /** Some attempt's text has left and its row is about to be written. */
  ghost predicate AboutToLog(s: State) {
    exists a :: a in s.attempts && s.attempts[a].Logging?
  }

  /** Each text that left was logged, is about to be, or was lost with its attempt. */
  ghost predicate Counted(s: State) {
    && (forall a, b :: a in s.attempts && b in s.attempts ==> a == b)
    && s.wire == s.lost + (if s.logged then 1 else 0) + (if AboutToLog(s) then 1 else 0)
    && (forall a :: a in s.attempts && (s.attempts[a].Sending? || s.attempts[a].Logging?) ==> !s.logged)
    && (forall a :: a in s.attempts ==> !s.attempts[a].Claiming?)
  }

  lemma OnlyAttempt(s: State, a: nat)
    requires forall b :: b in s.attempts ==> b == a
    ensures AboutToLog(s) <==> a in s.attempts && s.attempts[a].Logging?
  {
  }

  lemma CountedStep(cfg: Config, s: State, l: Label)
    requires cfg.sendClass.AtLeastOnce? && cfg.serial && Counted(s)
    ensures Counted(Next(cfg, s, l))
  {
    var t := Next(cfg, s, l);
    if t != s {
      assert l.Begin? ==> s.attempts == map[];
      assert !l.Begin? ==> l.a in s.attempts;
      OnlyAttempt(s, l.a);
      OnlyAttempt(t, l.a);
      hide AboutToLog, IsUnroutableDestination;
    }
  }

  /** With attempts one after the other, a text leaves at most once more than it was lost between wire and log. */
  lemma {:induction false} SendsBounded(cfg: Config, s: State, labels: seq<Label>)
    requires cfg.sendClass.AtLeastOnce? && cfg.serial && Counted(s)
    ensures var t := Run(cfg, s, labels);
      Counted(t) && t.wire <= 1 + t.lost && (t.logged ==> t.wire == 1 + t.lost)
    decreases |labels|
  {
    if labels != [] {
      CountedStep(cfg, s, labels[0]);
      SendsBounded(cfg, Next(cfg, s, labels[0]), labels[1..]);
    }
  }

  /** Every run from a fresh key keeps its class's promise. */
  lemma ClassKept(cfg: Config, labels: seq<Label>)
    ensures var s := Run(cfg, Initial, labels);
      && (cfg.sendClass.AtMostOnce? ==> s.wire <= 1)
      && (cfg.sendClass.AtLeastOnce? && s.completed && !IsUnroutableDestination(cfg.jid) ==> s.wire > 0)
      && (cfg.sendClass.AtLeastOnce? && s.completed && s.wire == 0 ==> s.deadLettered > 0)
      && (cfg.sendClass.AtLeastOnce? && cfg.serial ==> s.wire <= 1 + s.lost)
  {
    if cfg.sendClass.AtMostOnce? {
      AtMostOneSend(cfg, Initial, labels);
    } else {
      CompletedWasSent(cfg, Initial, labels);
      if cfg.serial { SendsBounded(cfg, Initial, labels); }
    }
  }

  /** Overlapping attempts would break the at-least-once bound: both check before either logs. */
  lemma OverlapSendsTwice(cfg: Config, id: string)
    requires cfg.sendClass.AtLeastOnce? && !cfg.serial && !IsUnroutableDestination(cfg.jid) && id != ""
    ensures var labels := [Begin(0), Begin(1), Check(0), Check(1), TrySend(0, true, Receipt(id)), TrySend(1, true, Receipt(id))];
      var s := Run(cfg, Initial, labels);
      s.wire == 2 && s.lost == 0
  {
    var s0 := Next(cfg, Initial, Begin(0));
    assert s0.attempts == map[0 := Checking];
    var s1 := Next(cfg, s0, Begin(1));
    assert s1.attempts == map[0 := Checking, 1 := Checking];
    var s2 := Next(cfg, Next(cfg, s1, Check(0)), Check(1));
    var rest := [TrySend(0, true, Receipt(id)), TrySend(1, true, Receipt(id))];
    assert s2.attempts == map[0 := Sending, 1 := Sending];
    var s3 := Next(cfg, s2, rest[0]);
    assert s3 == s2.(wire := 1, attempts := map[0 := Logging, 1 := Sending]);
    var s4 := Next(cfg, s3, rest[1]);
    assert s4.wire == 2 && s4.lost == 0;
    assert rest[1..] == [rest[1]] && [rest[1]][1..] == [];
    assert Run(cfg, s3, [rest[1]]) == Run(cfg, s4, []);
    assert Run(cfg, s2, rest) == s4;
    assert Run(cfg, s1, [Check(0), Check(1)] + rest) == Run(cfg, s2, rest) by {
      assert ([Check(0), Check(1)] + rest)[1..] == [Check(1)] + rest && ([Check(1)] + rest)[1..] == rest;
    }
    var labels := [Begin(0), Begin(1)] + ([Check(0), Check(1)] + rest);
    assert labels[1..] == [Begin(1)] + ([Check(0), Check(1)] + rest) && labels[1..][1..] == [Check(0), Check(1)] + rest;
    assert labels == [Begin(0), Begin(1), Check(0), Check(1), TrySend(0, true, Receipt(id)), TrySend(1, true, Receipt(id))];
  }
}
