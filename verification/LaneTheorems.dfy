/** The lane's promises, over every run from an empty inbox, and the run that shows what an ERROR breaks. */
module LaneTheorems {
  import opened Prelude
  import opened Debounce
  import opened Lane
  import opened LaneSafety
  import LB = LaneBatches
  import LQ = LaneQuiet

  lemma {:induction false} OkRun(cfg: Config, s: State, labels: seq<Label>)
    requires Ok(cfg, s)
    ensures Ok(cfg, Run(cfg, s, labels))
    decreases |labels|
  {
    if labels != [] {
      OkStep(cfg, s, labels[0]);
      OkRun(cfg, Next(cfg, s, labels[0]), labels[1..]);
    }
  }

  lemma OkInitial(cfg: Config)
    ensures Ok(cfg, Initial)
  {
    forall c: ConversationId ensures ConservedAt(Initial, c) { }
  }

  lemma {:induction false} GroupedRun(cfg: Config, s: State, labels: seq<Label>)
    requires Ok(cfg, s) && LB.Grouped(cfg, s)
    ensures Ok(cfg, Run(cfg, s, labels)) && LB.Grouped(cfg, Run(cfg, s, labels))
    decreases |labels|
  {
    if labels != [] {
      OkStep(cfg, s, labels[0]);
      LB.GroupedStep(cfg, s, labels[0]);
      GroupedRun(cfg, Next(cfg, s, labels[0]), labels[1..]);
    }
  }

  /**
   In every run, crashes and failed turns included: a conversation's rows, in
   commit order, are its completed batches one after the other and then what is
   still unprocessed; and a completed batch is a maximal run, one proactive row or
   one sender's, of the rows with which some drain of the conversation ended a wait.
   */
  lemma ConsumedInOrderOnce(cfg: Config, labels: seq<Label>, c: ConversationId)
    ensures var s := Run(cfg, Initial, labels);
      && Mine(s.inbox, c) == Flatten(Completed(s, c)) + Pending(s.inbox, s.processed, c)
      && (forall i :: 0 <= i < |Completed(s, c)| ==> LB.MaximalInARead(cfg, s.drains, c, Completed(s, c)[i]))
  {
    OkInitial(cfg);
    GroupedRun(cfg, Initial, labels);
    var s := Run(cfg, Initial, labels);
    assert ConservedAt(s, c);
    forall i | 0 <= i < |Completed(s, c)| ensures LB.MaximalInARead(cfg, s.drains, c, Completed(s, c)[i]) {
      LB.ReadIsMaximal(cfg, s.drains, c, Completed(s, c)[i]);
    }
  }

  /** And so is every batch that a turn was ever started with; its lead names the turn. */
  lemma TurnsGetMaximalRuns(cfg: Config, labels: seq<Label>, lead: MessageId, batch: seq<Item>)
    requires (lead, batch) in Run(cfg, Initial, labels).asked
    ensures batch != [] && batch[0].messageId == lead
    ensures exists c :: LB.MaximalInARead(cfg, Run(cfg, Initial, labels).drains, c, batch)
  {
    OkInitial(cfg);
    GroupedRun(cfg, Initial, labels);
    var s := Run(cfg, Initial, labels);
    assert LB.Asked(cfg, s, lead, batch);
    var c :| LB.Read(cfg, s.drains, c, batch);
    LB.ReadIsMaximal(cfg, s.drains, c, batch);
  }

  lemma {:induction false} OrderlyPrefix(cfg: Config, journal: seq<Answer>, n: nat)
    requires LQ.Orderly(cfg, journal) && n <= |journal|
    ensures LQ.Orderly(cfg, journal[..n])
    decreases |journal|
  {
    if n == |journal| {
      assert journal[..n] == journal;
    } else {
      OrderlyPrefix(cfg, journal[..|journal| - 1], n);
      assert journal[..|journal| - 1][..n] == journal[..n];
    }
  }

  /**
   Every wait of every drain, in every run: after the read behind a slept window the
   drain sleeps another window if and only if that read returned more rows than the
   one before it and the windows slept are below the cap.  Otherwise it goes on to
   the batches of that very read, or reads afresh when there are none.
   */
  lemma DrainsWaitUntilQuiet(cfg: Config, labels: seq<Label>, m: MessageId, k: nat)
    requires m in Run(cfg, Initial, labels).drains
    requires var journal := Run(cfg, Initial, labels).drains[m].journal;
      0 < k && k + 1 < |journal| && journal[k].Rows? && journal[k - 1].Slept?
    ensures var journal := Run(cfg, Initial, labels).drains[m].journal;
      match journal[k + 1]
      case Slept => !LQ.QuietEnd(cfg, journal[..k + 1])
      case Rows(_) => LQ.QuietEnd(cfg, journal[..k + 1]) && journal[k].rows == []
      case BatchDone =>
        && LQ.QuietEnd(cfg, journal[..k + 1])
        && Replay(cfg, journal[..k + 1]) == AtBatch(Batches(SortByNum(journal[k].rows)))
      case Marked => false
  {
    OkInitial(cfg);
    GroupedRun(cfg, Initial, labels);
    var journal := Run(cfg, Initial, labels).drains[m].journal;
    assert LQ.Orderly(cfg, journal);
    hide *;
    WaitGoesOn(cfg, journal, k);
  }

  lemma WaitGoesOn(cfg: Config, journal: seq<Answer>, k: nat)
    requires LQ.Orderly(cfg, journal) && 0 < k && k + 1 < |journal| && journal[k].Rows? && journal[k - 1].Slept?
    ensures match journal[k + 1]
      case Slept => !LQ.QuietEnd(cfg, journal[..k + 1])
      case Rows(_) => LQ.QuietEnd(cfg, journal[..k + 1]) && journal[k].rows == []
      case BatchDone =>
        && LQ.QuietEnd(cfg, journal[..k + 1])
        && Replay(cfg, journal[..k + 1]) == AtBatch(Batches(SortByNum(journal[k].rows)))
      case Marked => false
  {
    var upTo := journal[..k + 1];
    OrderlyPrefix(cfg, journal, k + 1);
    OrderlyPrefix(cfg, journal, k + 2);
    assert upTo[k] == journal[k] && upTo[k - 1] == journal[k - 1];
    LQ.QuietEndsIff(cfg, upTo);
    assert journal[..k + 2][..k + 1] == upTo && journal[..k + 2][k + 1] == journal[k + 1];
    assert LQ.Answers(Replay(cfg, upTo), journal[k + 1]);
    hide LQ.QuietEnd, Replay, LQ.Orderly;
  }

  // ----- No lost wakeup, and one batch per turn id, while nothing ends in ERROR -----

  ghost predicate NoFailure(s: State) {
    forall m :: m in s.drains ==> !s.drains[m].status.Failed?
  }

  /** Somebody will still look at the message: its drain, or the enqueue that starts its drain. */
  ghost predicate Awaited(s: State, m: MessageId) {
    || (m in s.drains && (s.drains[m].status.Queued? || s.drains[m].status.Running?))
    || (exists w :: w in s.enqueues && s.enqueues[w].draft.messageId == m && s.enqueues[w].pc.ToStartDrain?)
  }

  ghost predicate Woken(s: State) {
    forall i :: 0 <= i < |s.inbox| && i !in s.processed ==> Awaited(s, s.inbox[i].messageId)
  }

  /** The running drain k is at the batch, by its journal. */
  ghost predicate HasInHand(cfg: Config, d: Drain, batch: seq<Item>) {
    d.status.Running? &&
    match Replay(cfg, d.journal)
    case AtBatch(rest) => rest != [] && rest[0] == batch
    case AtMark(rest) => rest != [] && rest[0] == batch
    case _ => false
  }

  ghost predicate InHand(cfg: Config, drains: map<MessageId, Drain>, batch: seq<Item>) {
    exists m :: m in drains && HasInHand(cfg, drains[m], batch)
  }

  ghost predicate AskedOne(cfg: Config, s: State, m: MessageId, batch: seq<Item>) {
    && batch != [] && batch[0].messageId == m && batch[0].num < |s.inbox| && s.inbox[batch[0].num] == batch[0]
    && (batch[0].num in s.processed || InHand(cfg, s.drains, batch))
  }

  ghost predicate AskedOk(cfg: Config, s: State) {
    && (forall m, b :: (m, b) in s.asked ==> AskedOne(cfg, s, m, b))
    && (forall m, b, b' :: (m, b) in s.asked && (m, b') in s.asked ==> b == b')
  }

  lemma FailureStays(cfg: Config, s: State, l: Label)
    requires NoFailure(Next(cfg, s, l))
    ensures NoFailure(s)
  {
    var t := Next(cfg, s, l);
    forall m | m in s.drains ensures !s.drains[m].status.Failed? {
      assert m in t.drains;
    }
  }

  lemma WokenStep(cfg: Config, s: State, l: Label)
    requires Ok(cfg, s) && Woken(s) && NoFailure(Next(cfg, s, l))
    ensures Woken(Next(cfg, s, l))
  {
    var t := Next(cfg, s, l);
    OkStep(cfg, s, l);
    FailureStays(cfg, s, l);
    forall i | 0 <= i < |t.inbox| && i !in t.processed ensures Awaited(t, t.inbox[i].messageId) {
      var m := t.inbox[i].messageId;
      if i < |s.inbox| {
        AwaitedStays(cfg, s, l, i);
      } else {
        assert l.InsertRow? && l.w in t.enqueues && t.enqueues[l.w].draft.messageId == m;
      }
    }
  }

  /** Nothing durable is taken back by a step. */
  lemma StepGrows(cfg: Config, s: State, l: Label)
    ensures var t := Next(cfg, s, l);
      && s.inbox <= t.inbox && s.processed <= t.processed && s.drains.Keys <= t.drains.Keys
      && (forall w :: w in s.enqueues && s.enqueues[w].pc.ToStartDrain? ==>
            && w in t.enqueues && t.enqueues[w].draft == s.enqueues[w].draft
            && (t.enqueues[w].pc.ToStartDrain? || s.enqueues[w].draft.messageId in t.drains))
  {
    hide Batches, SortByNum, Contains, Pending, Replay;
  }

  lemma AwaitedStays(cfg: Config, s: State, l: Label, i: nat)
    requires Ok(cfg, Next(cfg, s, l)) && Woken(s) && NoFailure(Next(cfg, s, l))
    requires i < |s.inbox| && i !in Next(cfg, s, l).processed
    ensures i < |Next(cfg, s, l).inbox| && Next(cfg, s, l).inbox[i] == s.inbox[i]
    ensures Awaited(Next(cfg, s, l), s.inbox[i].messageId)
  {
    var t := Next(cfg, s, l);
    var m := s.inbox[i].messageId;
    StepGrows(cfg, s, l);
    assert i !in s.processed && Awaited(s, m);
    assert t.inbox[i] == s.inbox[i];
    if m in t.drains {
      FinishedOrWaiting(cfg, t.inbox, t.processed, m, t.drains[m], i);
    } else {
      var w :| w in s.enqueues && s.enqueues[w].draft.messageId == m && s.enqueues[w].pc.ToStartDrain?;
      assert t.enqueues[w].draft == s.enqueues[w].draft;
    }
  }

  lemma FinishedOrWaiting(cfg: Config, inbox: seq<Item>, processed: set<nat>, m: MessageId, d: Drain, i: nat)
    requires DrainOk(cfg, inbox, processed, m, d) && !d.status.Failed?
    requires i < |inbox| && inbox[i].messageId == m && i !in processed
    ensures d.status.Queued? || d.status.Running?
  {
  }

  /** A batch in hand stays in hand until its mark, which processes its rows. */
  lemma HandStays(cfg: Config, s: State, l: Label, k: MessageId, b: seq<Item>)
    requires k in s.drains && DrainOk(cfg, s.inbox, s.processed, k, s.drains[k]) && HasInHand(cfg, s.drains[k], b)
    requires !l.FailTurn?
    ensures k in Next(cfg, s, l).drains
    ensures HasInHand(cfg, Next(cfg, s, l).drains[k], b) || Nums(b) <= Next(cfg, s, l).processed
  {
    hide Batches, SortByNum, Contains, Pending, Replay;
    var d := s.drains[k];
    match l
    case FinishTurn(m) => ReplaySnoc(cfg, d.journal, BatchDone);
    case Mark(m) =>
    case _ =>
  }

  lemma InHandStays(cfg: Config, s: State, l: Label, m: MessageId, b: seq<Item>)
    requires Ok(cfg, s) && !l.FailTurn? && AskedOne(cfg, s, m, b)
    ensures AskedOne(cfg, Next(cfg, s, l), m, b)
  {
    var t := Next(cfg, s, l);
    StepGrows(cfg, s, l);
    if b[0].num !in s.processed {
      var k :| k in s.drains && HasInHand(cfg, s.drains[k], b);
      assert DrainOk(cfg, s.inbox, s.processed, k, s.drains[k]);
      HandStays(cfg, s, l, k, b);
      assert b[0].num in Nums(b);
    }
  }

  lemma FailTurnFails(s: State, m: MessageId)
    ensures DoFailTurn(s, m) == s || !NoFailure(DoFailTurn(s, m))
  {
    if AtTurn(s, m) && (Current(s, m)[0].messageId, Current(s, m)) in s.asked {
      assert DoFailTurn(s, m).drains[m].status.Failed?;
    }
  }

  lemma AskedStep(cfg: Config, s: State, l: Label)
    requires Ok(cfg, s) && AskedOk(cfg, s) && NoFailure(Next(cfg, s, l))
    ensures AskedOk(cfg, Next(cfg, s, l))
  {
    hide Ok;
    var t := Next(cfg, s, l);
    if l.FailTurn? { FailTurnFails(s, l.m); }
    if t != s {
      forall m, b | (m, b) in s.asked ensures AskedOne(cfg, t, m, b) {
        InHandStays(cfg, s, l, m, b);
      }
      if l.StartTurn? { NewAskFits(cfg, s, l.m); }
    }
  }

  /** A started turn's batch is unprocessed and its drain's own, so no other batch has its lead. */
  lemma NewAskFits(cfg: Config, s: State, m: MessageId)
    requires Ok(cfg, s) && AskedOk(cfg, s) && AtTurn(s, m)
    ensures var b := Current(s, m);
      && AskedOne(cfg, s, b[0].messageId, b)
      && (forall b' :: (b[0].messageId, b') in s.asked ==> b' == b)
  {
    var d := s.drains[m];
    var b := Current(s, m);
    var p := Pending(s.inbox, s.processed, d.conversation);
    assert DrainOk(cfg, s.inbox, s.processed, m, d);
    LeadIsPending(cfg, s, m, b);
    assert HasInHand(cfg, s.drains[m], b);
    forall b' | (b[0].messageId, b') in s.asked ensures b' == b {
      assert AskedOne(cfg, s, b[0].messageId, b');
      assert b'[0] == b[0];
      var k :| k in s.drains && HasInHand(cfg, s.drains[k], b');
      LeadIsPending(cfg, s, k, b');
      assert s.drains[k].conversation == d.conversation;
    }
  }

  lemma LeadIsPending(cfg: Config, s: State, m: MessageId, b: seq<Item>)
    requires Ok(cfg, s) && m in s.drains && HasInHand(cfg, s.drains[m], b)
    ensures b != [] && b[0].num < |s.inbox| && s.inbox[b[0].num] == b[0]
    ensures b[0].num !in s.processed && b[0].conversation == s.drains[m].conversation
  {
    var d := s.drains[m];
    assert DrainOk(cfg, s.inbox, s.processed, m, d);
    var rest := Replay(cfg, d.journal).rest;
    var p := Pending(s.inbox, s.processed, d.conversation);
    assert IsRun(rest[0]) && Flatten(rest) == rest[0] + Flatten(rest[1..]);
    assert p[0] == b[0];
    PendingIsUnprocessed(s.inbox, s.processed, d.conversation, p[0]);
  }

  lemma {:induction false} WatchedRun(cfg: Config, s: State, labels: seq<Label>)
    requires Ok(cfg, s) && Woken(s) && AskedOk(cfg, s) && NoFailure(Run(cfg, s, labels))
    ensures Woken(Run(cfg, s, labels)) && AskedOk(cfg, Run(cfg, s, labels)) && Ok(cfg, Run(cfg, s, labels))
    decreases |labels|
  {
    if labels != [] {
      var t := Next(cfg, s, labels[0]);
      NoFailureBefore(cfg, t, labels[1..]);
      OkStep(cfg, s, labels[0]);
      WokenStep(cfg, s, labels[0]);
      AskedStep(cfg, s, labels[0]);
      WatchedRun(cfg, t, labels[1..]);
    }
  }

  lemma {:induction false} NoFailureBefore(cfg: Config, s: State, labels: seq<Label>)
    requires NoFailure(Run(cfg, s, labels))
    ensures NoFailure(s)
    decreases |labels|
  {
    if labels != [] {
      NoFailureBefore(cfg, Next(cfg, s, labels[0]), labels[1..]);
      FailureStays(cfg, s, labels[0]);
    }
  }

  /**
   In every run in which nothing has ended in ERROR: no turn id is started with two
   different batches; an unprocessed row has its drain queued or running, or its
   enqueue about to start it; and a finished drain's message is processed.
   */
  lemma NoLostWakeup(cfg: Config, labels: seq<Label>)
    requires NoFailure(Run(cfg, Initial, labels))
    ensures var s := Run(cfg, Initial, labels);
      && (forall m, b, b' :: (m, b) in s.asked && (m, b') in s.asked ==> b == b')
      && (forall i :: 0 <= i < |s.inbox| && i !in s.processed ==> Awaited(s, s.inbox[i].messageId))
      && (forall m, i :: m in s.drains && s.drains[m].status.Finished? && 0 <= i < |s.inbox| && s.inbox[i].messageId == m
            ==> i in s.processed)
  {
    OkInitial(cfg);
    WatchedRun(cfg, Initial, labels);
    var s := Run(cfg, Initial, labels);
    forall m | m in s.drains ensures DrainOk(cfg, s.inbox, s.processed, m, s.drains[m]) { }
  }

  /** Nothing is queued, running or half enqueued. */
  ghost predicate Quiescent(s: State) {
    && (forall m :: m in s.drains ==> s.drains[m].status.Finished?)
    && (forall w :: w in s.enqueues ==> s.enqueues[w].pc.Enqueued?)
  }

  /** A quiescent lane has consumed everything: the completed batches are exactly the conversation's rows. */
  lemma QuiescentIsEmpty(cfg: Config, labels: seq<Label>, c: ConversationId)
    requires Quiescent(Run(cfg, Initial, labels))
    ensures var s := Run(cfg, Initial, labels);
      Pending(s.inbox, s.processed, c) == [] && Flatten(Completed(s, c)) == Mine(s.inbox, c)
  {
    var s := Run(cfg, Initial, labels);
    NoLostWakeup(cfg, labels);
    ConsumedInOrderOnce(cfg, labels, c);
    OkInitial(cfg);
    OkRun(cfg, Initial, labels);
    forall i | 0 <= i < |s.inbox| ensures i in s.processed {
      assert !Awaited(s, s.inbox[i].messageId);
    }
    NothingPending(s.inbox, s.processed, c);
  }

  lemma {:induction false} NothingPending(inbox: seq<Item>, processed: set<nat>, c: ConversationId)
    requires Numbered(inbox) && forall i :: 0 <= i < |inbox| ==> i in processed
    ensures Pending(inbox, processed, c) == []
    decreases |inbox|
  {
    if inbox != [] {
      NothingPending(inbox[..|inbox| - 1], processed, c);
    }
  }

  // ----- Termination -----

  /** A bound on the journal entries a drain still writes before it returns, if no row arrives. */
  function Cost(pending: nat, pc: Pc): int {
    match pc
    case AtRead => 7 * pending + 1
    case AtSleep(p, _) => 7 * pending - 2 + (if |p| < pending then 2 else 0)
    case AtReread(p, _) => 7 * pending - 3 + (if |p| < pending then 2 else 0)
    case AtBatch(_) => 7 * pending - 4
    case AtMark(_) => 7 * pending - 5
    case Returned => 0
  }

  function StillToDo(cfg: Config, s: State, d: Drain): int {
    if d.status.Queued? || d.status.Running?
    then Cost(|Pending(s.inbox, s.processed, d.conversation)|, Replay(cfg, d.journal)) else 0
  }

  /** A drain's journal never holds more than nine entries per row of its conversation, and one. */
  ghost predicate Budgeted(cfg: Config, s: State, d: Drain) {
    |d.journal| + StillToDo(cfg, s, d) <= 9 * |Mine(s.inbox, d.conversation)| + 1
  }

  ghost predicate AllBudgeted(cfg: Config, s: State) {
    forall m :: m in s.drains ==> Budgeted(cfg, s, s.drains[m])
  }

  /** A pc that fits its read has a nonnegative bound. */
  lemma CostNonnegative(p: seq<Item>, pc: Pc)
    requires PcOk(p, pc)
    ensures Cost(|p|, pc) >= 0
  {
    if pc.AtBatch? || pc.AtMark? {
      assert IsRun(pc.rest[0]) && Flatten(pc.rest) == pc.rest[0] + Flatten(pc.rest[1..]);
    }
  }

  /** An answer that is not a mark lowers the bound by at least the entry it writes. */
  lemma AnswerPays(cfg: Config, p: seq<Item>, pc: Pc, a: Answer)
    requires PcOk(p, pc) && SortedByNum(p)
    requires (a == Rows(p) && (pc.AtRead? || pc.AtReread?)) || (a.Slept? && pc.AtSleep?) || (a.BatchDone? && pc.AtBatch?)
    ensures Cost(|p|, Advance(cfg, pc, a)) < Cost(|p|, pc)
  {
    match pc
    case AtReread(q, waited) =>
      assert |q| <= |p|;
      if !(|p| > |q| && waited < cfg.maxQuietWaitMs) {
        SortOfSorted(p);
        assert Advance(cfg, pc, a) == AtBatch(Batches(p));
      }
    case _ =>
  }

  /** A mark lowers it too: at least one row leaves the read. */
  lemma MarkPays(cfg: Config, p: seq<Item>, rest: seq<seq<Item>>)
    requires PcOk(p, AtMark(rest))
    ensures |rest[0]| <= |p| && Cost(|p| - |rest[0]|, Advance(cfg, AtMark(rest), Marked)) < Cost(|p|, AtMark(rest))
  {
    assert IsRun(rest[0]) && Flatten(rest) == rest[0] + Flatten(rest[1..]);
  }

  /** A drain that took no step: its read is as it was, or it is only queued and its read shrank. */
  lemma BudgetKept(cfg: Config, s: State, t: State, d: Drain, d': Drain)
    requires Budgeted(cfg, s, d) && d' == d.(memory := d'.memory, status := d'.status)
    requires (d'.status.Queued? || d'.status.Running?) ==> (d.status.Queued? || d.status.Running?)
    requires !(d'.status.Queued? || d'.status.Running?) ==> StillToDo(cfg, s, d) >= 0
    requires |Mine(s.inbox, d.conversation)| <= |Mine(t.inbox, d.conversation)|
    requires (d'.status.Queued? || d'.status.Running?) ==>
               var u, v := |Pending(s.inbox, s.processed, d.conversation)|, |Pending(t.inbox, t.processed, d.conversation)|;
               v == u || (v < u && Replay(cfg, d.journal).AtRead?)
    ensures Budgeted(cfg, t, d')
  {
  }

  lemma StillToDoNonnegative(cfg: Config, s: State, m: MessageId)
    requires m in s.drains && DrainOk(cfg, s.inbox, s.processed, m, s.drains[m])
    ensures StillToDo(cfg, s, s.drains[m]) >= 0
  {
    if s.drains[m].status.Running? {
      CostNonnegative(Pending(s.inbox, s.processed, s.drains[m].conversation), Replay(cfg, s.drains[m].journal));
    }
  }

  lemma BudgetRead(cfg: Config, s: State, m: MessageId)
    requires Ok(cfg, s) && m in s.drains && Budgeted(cfg, s, s.drains[m])
    ensures m in DoRead(cfg, s, m).drains && Budgeted(cfg, DoRead(cfg, s, m), DoRead(cfg, s, m).drains[m])
  {
    if DoRead(cfg, s, m) != s {
      var d := s.drains[m];
      var p := Pending(s.inbox, s.processed, d.conversation);
      assert DrainOk(cfg, s.inbox, s.processed, m, d);
      PendingIsSorted(s.inbox, s.processed, d.conversation);
      ReplaySnoc(cfg, d.journal, Rows(p));
      AnswerPays(cfg, p, d.memory.value, Rows(p));
    }
  }

  lemma BudgetSleep(cfg: Config, s: State, m: MessageId)
    requires Ok(cfg, s) && m in s.drains && Budgeted(cfg, s, s.drains[m])
    ensures m in DoSleep(cfg, s, m).drains && Budgeted(cfg, DoSleep(cfg, s, m), DoSleep(cfg, s, m).drains[m])
  {
    if DoSleep(cfg, s, m) != s {
      var d := s.drains[m];
      assert DrainOk(cfg, s.inbox, s.processed, m, d);
      PendingIsSorted(s.inbox, s.processed, d.conversation);
      ReplaySnoc(cfg, d.journal, Slept);
      AnswerPays(cfg, Pending(s.inbox, s.processed, d.conversation), d.memory.value, Slept);
    }
  }

  lemma BudgetFinishTurn(cfg: Config, s: State, m: MessageId)
    requires Ok(cfg, s) && m in s.drains && Budgeted(cfg, s, s.drains[m])
    ensures m in DoFinishTurn(cfg, s, m).drains && Budgeted(cfg, DoFinishTurn(cfg, s, m), DoFinishTurn(cfg, s, m).drains[m])
  {
    if DoFinishTurn(cfg, s, m) != s {
      var d := s.drains[m];
      assert DrainOk(cfg, s.inbox, s.processed, m, d);
      PendingIsSorted(s.inbox, s.processed, d.conversation);
      ReplaySnoc(cfg, d.journal, BatchDone);
      AnswerPays(cfg, Pending(s.inbox, s.processed, d.conversation), d.memory.value, BatchDone);
    }
  }

  lemma BudgetMark(cfg: Config, s: State, k: MessageId, m: MessageId)
    requires Ok(cfg, s) && m in s.drains && Budgeted(cfg, s, s.drains[m])
    ensures m in DoMark(cfg, s, k).drains && Budgeted(cfg, DoMark(cfg, s, k), DoMark(cfg, s, k).drains[m])
  {
    var t := DoMark(cfg, s, k);
    if t != s {
      var d: Drain := s.drains[k];
      assert DrainOk(cfg, s.inbox, s.processed, k, d) && DrainOk(cfg, s.inbox, s.processed, m, s.drains[m]);
      MarkReads(cfg, s, d.conversation, d.memory.value.rest);
      if k == m {
        ReplaySnoc(cfg, d.journal, Marked);
        MarkPays(cfg, Pending(s.inbox, s.processed, d.conversation), d.memory.value.rest);
      } else {
        StillToDoNonnegative(cfg, s, m);
        BudgetKept(cfg, s, t, s.drains[m], s.drains[m]);
      }
    }
  }

  lemma BudgetNewRow(cfg: Config, s: State, w: WorkflowId, m: MessageId)
    requires m in s.drains && Budgeted(cfg, s, s.drains[m])
    ensures Budgeted(cfg, DoInsertRow(s, w), DoInsertRow(s, w).drains[m])
  {
    var t := DoInsertRow(s, w);
    if t.inbox != s.inbox {
      assert t.inbox[..|s.inbox|] == s.inbox;
    }
  }

  /** The labels that write no entry to m's journal and touch no row. */
  predicate Aside(l: Label, m: MessageId) {
    match l
    case InsertRow(_) => false
    case Mark(_) => false
    case Sleep(k) => k != m
    case Read(k) => k != m
    case FinishTurn(k) => k != m
    case _ => true
  }

  lemma AsideKeeps(cfg: Config, s: State, l: Label, m: MessageId)
    requires m in s.drains && Aside(l, m)
    ensures var t := Next(cfg, s, l);
      && t.inbox == s.inbox && t.processed == s.processed && m in t.drains
      && t.drains[m] == s.drains[m].(memory := t.drains[m].memory, status := t.drains[m].status)
      && ((t.drains[m].status.Queued? || t.drains[m].status.Running?) ==> (s.drains[m].status.Queued? || s.drains[m].status.Running?))
  {
  }

  lemma BudgetStep(cfg: Config, s: State, l: Label, m: MessageId)
    requires Ok(cfg, s) && m in s.drains && Budgeted(cfg, s, s.drains[m])
    ensures m in Next(cfg, s, l).drains && Budgeted(cfg, Next(cfg, s, l), Next(cfg, s, l).drains[m])
  {
    if Aside(l, m) {
      AsideKeeps(cfg, s, l, m);
      StillToDoNonnegative(cfg, s, m);
      BudgetKept(cfg, s, Next(cfg, s, l), s.drains[m], Next(cfg, s, l).drains[m]);
    } else {
      match l
      case InsertRow(w) => BudgetNewRow(cfg, s, w, m);
      case Mark(k) => BudgetMark(cfg, s, k, m);
      case Sleep(_) => BudgetSleep(cfg, s, m);
      case Read(_) => BudgetRead(cfg, s, m);
      case FinishTurn(_) => BudgetFinishTurn(cfg, s, m);
    }
  }

  lemma {:induction false} ReadIsPartOfMine(inbox: seq<Item>, processed: set<nat>, c: ConversationId)
    ensures |Pending(inbox, processed, c)| <= |Mine(inbox, c)|
    decreases |inbox|
  {
    if inbox != [] { ReadIsPartOfMine(inbox[..|inbox| - 1], processed, c); }
  }

  lemma AllBudgetedStep(cfg: Config, s: State, l: Label)
    requires Ok(cfg, s) && AllBudgeted(cfg, s)
    ensures AllBudgeted(cfg, Next(cfg, s, l))
  {
    var t := Next(cfg, s, l);
    forall m | m in t.drains ensures Budgeted(cfg, t, t.drains[m]) {
      if m in s.drains {
        BudgetStep(cfg, s, l, m);
      } else {
        ReadIsPartOfMine(t.inbox, t.processed, t.drains[m].conversation);
        assert t.drains[m].journal == [];
      }
    }
  }

  lemma {:induction false} BudgetRun(cfg: Config, s: State, labels: seq<Label>)
    requires Ok(cfg, s) && AllBudgeted(cfg, s)
    ensures Ok(cfg, Run(cfg, s, labels)) && AllBudgeted(cfg, Run(cfg, s, labels))
    decreases |labels|
  {
    if labels != [] {
      OkStep(cfg, s, labels[0]);
      AllBudgetedStep(cfg, s, labels[0]);
      BudgetRun(cfg, Next(cfg, s, labels[0]), labels[1..]);
    }
  }

  /**
   A drain terminates when arrivals do: over any run, with any crashes, the steps it
   ever completes are at most nine for each row of its conversation, and one.
   */
  lemma DrainsTerminate(cfg: Config, labels: seq<Label>, m: MessageId)
    requires m in Run(cfg, Initial, labels).drains
    ensures var s := Run(cfg, Initial, labels);
      |s.drains[m].journal| <= 9 * |Mine(s.inbox, s.drains[m].conversation)| + 1
  {
    OkInitial(cfg);
    BudgetRun(cfg, Initial, labels);
    var s := Run(cfg, Initial, labels);
    assert DrainOk(cfg, s.inbox, s.processed, m, s.drains[m]) && Budgeted(cfg, s, s.drains[m]);
    StillToDoNonnegative(cfg, s, m);
  }

  /** Recovery only restores what the journal holds. */
  lemma Recovers(cfg: Config, s: State, m: MessageId)
    requires Ok(cfg, s) && m in s.drains && s.drains[m].status.Running?
    ensures var t := Next(cfg, s, Recover(m));
      Ok(cfg, t) && Live(t, m) && t.drains[m].journal == s.drains[m].journal
  {
    OkStep(cfg, s, Recover(m));
  }

  /** And it is never stuck: a running drain can complete a step, once it is recovered if a crash took its memory. */
  lemma DrainsProgress(cfg: Config, s: State, m: MessageId) returns (labels: seq<Label>)
    requires Ok(cfg, s) && m in s.drains && s.drains[m].status.Running?
    ensures var t := Run(cfg, s, labels);
      m in t.drains && |t.drains[m].journal| == |s.drains[m].journal| + 1
  {
    Recovers(cfg, s, m);
    var s1 := Next(cfg, s, Recover(m));
    var first, second := LiveProgresses(cfg, s1, m);
    labels := [Recover(m), first, second];
    hide Next, Ok, Live;
    assert labels[1..] == [first, second] && [first, second][1..] == [second] && [second][1..] == [];
    assert Run(cfg, s, labels) == Run(cfg, s1, [first, second]);
    assert Run(cfg, s1, [first, second]) == Run(cfg, Next(cfg, s1, first), [second]);
    assert Run(cfg, Next(cfg, s1, first), [second]) == Run(cfg, Next(cfg, Next(cfg, s1, first), second), []);
  }

  lemma LiveProgresses(cfg: Config, s: State, m: MessageId) returns (first: Label, second: Label)
    requires Ok(cfg, s) && Live(s, m)
    ensures var t := Next(cfg, Next(cfg, s, first), second);
      m in t.drains && |t.drains[m].journal| == |s.drains[m].journal| + 1
  {
    var d := s.drains[m];
    assert DrainOk(cfg, s.inbox, s.processed, m, d);
    match d.memory.value {
      case AtRead => first, second := Read(m), Crash;
      case AtSleep(_, _) => first, second := Sleep(m), Crash;
      case AtReread(_, _) => first, second := Read(m), Crash;
      case AtBatch(rest) =>
        assert IsRun(rest[0]);
        first, second := StartTurn(m), FinishTurn(m);
      case AtMark(_) => first, second := Mark(m), Crash;
    }
  }

  /** The silence window: one window at least, and never as much as a window past the cap. */
  lemma {:induction false} QuietWaitBounded(cfg: Config, journal: seq<Answer>)
    requires 0 < cfg.silenceWindowMs
    ensures match Replay(cfg, journal)
      case AtSleep(_, waited) => waited == 0 || cfg.silenceWindowMs <= waited < cfg.maxQuietWaitMs
      case AtReread(_, waited) =>
        cfg.silenceWindowMs <= waited && (waited == cfg.silenceWindowMs || waited < cfg.maxQuietWaitMs + cfg.silenceWindowMs)
      case _ => true
    decreases |journal|
  {
    if journal != [] { QuietWaitBounded(cfg, journal[..|journal| - 1]); }
  }
}
