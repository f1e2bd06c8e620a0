/** From the inbox row to the wire: which rows' replies may be lost, and which may come twice. */
module ReplyDelivery {
  import opened Prelude
  import opened Debounce
  import L = Lane
  import LS = LaneSafety
  import LB = LaneBatches
  import LT = LaneTheorems
  import D = Delivery
  import S = Sweeps

  /** A row a person sent, or an action update: what may be lost but must not come twice. */
  predicate LowStakes(lead: Item) {
    lead.kind.Human? || lead.sender == "system:hitl"
  }

  /** A row the reminder sweep made: what must come, even at the price of coming twice. */
  predicate Promised(lead: Item) {
    lead.kind.Proactive? && lead.sender == "system"
  }

  /**
   Under every schedule of attempts, crashes and replays of a reply to this row: a
   person's row and an action update are answered at most once; a reminder's completed
   reply left, unless nothing can ever reach its destination and it was dead-lettered,
   and with attempts one after the other it left once more than it was lost at most.
   */
  lemma ReplyKeepsItsPromise(lead: Item, cfg: D.Config, labels: seq<D.Label>)
    requires cfg.sendClass == D.SelectSendClass(lead)
    ensures var s := D.Run(cfg, D.Initial, labels);
      && (LowStakes(lead) ==> s.wire <= 1)
      && (Promised(lead) && s.completed && s.wire == 0 ==> s.deadLettered > 0 && D.IsUnroutableDestination(cfg.jid))
      && (Promised(lead) && cfg.serial ==> s.wire <= 1 + s.lost)
  {
    D.ClassKept(cfg, labels);
  }

  /** Anyone else's proactive row earns no right to a duplicate either. */
  lemma OthersAtMostOnce(lead: Item, cfg: D.Config, labels: seq<D.Label>)
    requires cfg.sendClass == D.SelectSendClass(lead) && !Promised(lead)
    ensures D.Run(cfg, D.Initial, labels).wire <= 1
  {
    D.ClassKept(cfg, labels);
  }

  // ----- Where a turn's lead comes from -----

  /** Every row was written by an enqueue of it. */
  ghost predicate Drafted(s: L.State) {
    forall i :: 0 <= i < |s.inbox| ==> HasDraft(s, s.inbox[i])
  }

  ghost predicate HasDraft(s: L.State, row: Item) {
    exists w: L.WorkflowId :: w in s.enqueues && DraftOf(s.enqueues[w].draft, row)
  }

  predicate DraftOf(d: L.Draft, row: Item) {
    d.messageId == row.messageId && d.conversation == row.conversation && d.kind == row.kind && d.sender == row.sender
  }

  /** Every batch a turn was started with is a run of inbox rows. */
  ghost predicate AskedRows(s: L.State) {
    forall lead: string, b: seq<Item> :: (lead, b) in s.asked ==>
      IsRun(b) && b[0].messageId == lead && forall i :: 0 <= i < |b| ==> b[i] in s.inbox
  }

  lemma EnqueuesStay(cfg: L.Config, s: L.State, l: L.Label)
    ensures var t := L.Next(cfg, s, l);
      && (forall w :: w in s.enqueues ==> w in t.enqueues && t.enqueues[w].draft == s.enqueues[w].draft)
      && (t.inbox == s.inbox || (t.inbox == s.inbox + [t.inbox[|s.inbox|]] && l.InsertRow? && l.w in s.enqueues
            && DraftOf(s.enqueues[l.w].draft, t.inbox[|s.inbox|])))
  {
    var t := L.Next(cfg, s, l);
    if l.InsertRow? && t.inbox != s.inbox {
      assert |t.inbox| == |s.inbox| + 1 && t.inbox[..|s.inbox|] == s.inbox;
    }
    hide Batches, SortByNum, L.Contains, L.Pending, L.Replay;
  }

  lemma DraftedStep(cfg: L.Config, s: L.State, l: L.Label)
    requires Drafted(s)
    ensures Drafted(L.Next(cfg, s, l))
  {
    var t := L.Next(cfg, s, l);
    EnqueuesStay(cfg, s, l);
    hide L.Next;
    forall i | 0 <= i < |t.inbox| ensures HasDraft(t, t.inbox[i]) {
      if i < |s.inbox| {
        assert t.inbox[i] == s.inbox[i] && HasDraft(s, s.inbox[i]);
        var w: L.WorkflowId :| w in s.enqueues && DraftOf(s.enqueues[w].draft, s.inbox[i]);
        assert DraftOf(t.enqueues[w].draft, t.inbox[i]);
      } else {
        assert DraftOf(t.enqueues[l.w].draft, t.inbox[i]);
      }
    }
  }

  lemma AskedRowsStep(cfg: L.Config, s: L.State, l: L.Label)
    requires LS.Ok(cfg, s) && AskedRows(s)
    ensures AskedRows(L.Next(cfg, s, l))
  {
    var t := L.Next(cfg, s, l);
    LB.HistoryStep(cfg, s, l);
    EnqueuesStay(cfg, s, l);
    if t.asked != s.asked { CurrentRows(cfg, s, l.m); }
    hide L.Next, LS.Ok, IsRun;
  }

  /** A live drain's next batch is a run of inbox rows. */
  lemma CurrentRows(cfg: L.Config, s: L.State, m: L.MessageId)
    requires LS.Ok(cfg, s) && L.AtTurn(s, m)
    ensures IsRun(L.Current(s, m)) && forall i :: 0 <= i < |L.Current(s, m)| ==> L.Current(s, m)[i] in s.inbox
  {
    var d: L.Drain := s.drains[m];
    var batch := L.Current(s, m);
    assert LS.DrainOk(cfg, s.inbox, s.processed, m, d);
    var pending := L.Pending(s.inbox, s.processed, d.conversation);
    assert Flatten(d.memory.value.rest) <= pending;
    assert batch <= Flatten(d.memory.value.rest);
    forall i | 0 <= i < |batch| ensures batch[i] in s.inbox {
      assert batch[i] == pending[i];
      LS.PendingIsUnprocessed(s.inbox, s.processed, d.conversation, batch[i]);
    }
  }

  lemma {:induction false} RowsRun(cfg: L.Config, s: L.State, labels: seq<L.Label>)
    requires LS.Ok(cfg, s) && Drafted(s) && AskedRows(s)
    ensures var t := L.Run(cfg, s, labels);
      LS.Ok(cfg, t) && Drafted(t) && AskedRows(t)
    decreases |labels|
  {
    if labels != [] {
      LS.OkStep(cfg, s, labels[0]);
      DraftedStep(cfg, s, labels[0]);
      AskedRowsStep(cfg, s, labels[0]);
      RowsRun(cfg, L.Next(cfg, s, labels[0]), labels[1..]);
    }
  }

  /** In every run of the lane a turn's lead row is what some enqueue of its message id drafted, and a proactive lead is alone. */
  lemma LeadWasDrafted(cfg: L.Config, labels: seq<L.Label>, lead: L.MessageId, batch: seq<Item>)
    requires (lead, batch) in L.Run(cfg, L.Initial, labels).asked
    ensures batch != [] && batch[0].messageId == lead && (batch[0].kind.Proactive? ==> |batch| == 1)
    ensures var s := L.Run(cfg, L.Initial, labels);
      exists w :: w in s.enqueues && s.enqueues[w].draft.messageId == lead && DraftOf(s.enqueues[w].draft, batch[0])
  {
    LT.OkInitial(cfg);
    RowsRun(cfg, L.Initial, labels);
    var s := L.Run(cfg, L.Initial, labels);
    assert batch[0] in s.inbox && HasDraft(s, batch[0]);
    if |batch| > 1 { RunIsOneVoice(batch, 0); }
  }

  // ----- End to end -----

  /** Nothing but this draft is ever enqueued under its message id. */
  ghost predicate OnlyDraft(s: L.State, d: L.Draft) {
    forall w :: w in s.enqueues && s.enqueues[w].draft.messageId == d.messageId ==> s.enqueues[w].draft == d
  }

  /**
   A reminder arrives: whatever interleaves and crashes in the lane and in the send,
   the turn its firing leads is about it alone, and once that turn's reply step
   completed, the reply has left or could not be routed and was dead-lettered.
   */
  lemma ReminderArrives(cfg: L.Config, labels: seq<L.Label>, c: string, id: string, at: string, batch: seq<Item>,
                        send: D.Config, sends: seq<D.Label>)
    requires var s := L.Run(cfg, L.Initial, labels);
      OnlyDraft(s, S.ReminderDraft(c, id, at)) && (S.ReminderFiringId(id, at), batch) in s.asked
    requires batch != [] ==> send.sendClass == D.SelectSendClass(batch[0])
    ensures |batch| == 1 && batch[0].conversation == c
    ensures var t := D.Run(send, D.Initial, sends);
      && (t.completed && t.wire == 0 ==> t.deadLettered > 0 && D.IsUnroutableDestination(send.jid))
      && (send.serial ==> t.wire <= 1 + t.lost)
  {
    LeadWasDrafted(cfg, labels, S.ReminderFiringId(id, at), batch);
    ReplyKeepsItsPromise(batch[0], send, sends);
  }

  /** An expiry notice, and anything a person wrote, is answered at most once. */
  lemma NoDuplicateReply(cfg: L.Config, labels: seq<L.Label>, d: L.Draft, batch: seq<Item>, send: D.Config, sends: seq<D.Label>)
    requires d.kind.Human? || exists c, actionId :: d == S.ExpiryDraft(c, actionId)
    requires var s := L.Run(cfg, L.Initial, labels);
      OnlyDraft(s, d) && (d.messageId, batch) in s.asked
    requires batch != [] ==> send.sendClass == D.SelectSendClass(batch[0])
    ensures D.Run(send, D.Initial, sends).wire <= 1
  {
    LeadWasDrafted(cfg, labels, d.messageId, batch);
    ReplyKeepsItsPromise(batch[0], send, sends);
  }
}
