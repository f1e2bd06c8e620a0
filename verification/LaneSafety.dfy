/** What every run of the conversation lane keeps: order, exactly-once consumption, no lost wakeup. */
module LaneSafety {
  import opened Prelude
  import opened Debounce
  import opened Lane

  // ----- Reads of the inbox -----

  /** Serial numbers are commit order. */
  predicate Numbered(inbox: seq<Item>) {
    forall i :: 0 <= i < |inbox| ==> inbox[i].num == i
  }

  lemma {:induction false} PendingIsUnprocessed(inbox: seq<Item>, processed: set<nat>, c: ConversationId, x: Item)
    requires Numbered(inbox)
    ensures x in Pending(inbox, processed, c) <==>
      x.num < |inbox| && inbox[x.num] == x && x.conversation == c && x.num !in processed
    decreases |inbox|
  {
    if inbox != [] {
      PendingIsUnprocessed(inbox[..|inbox| - 1], processed, c, x);
    }
  }

  lemma {:induction false} PendingIsSorted(inbox: seq<Item>, processed: set<nat>, c: ConversationId)
    requires Numbered(inbox)
    ensures SortedByNum(Pending(inbox, processed, c))
    decreases |inbox|
  {
    if inbox != [] {
      var before := inbox[..|inbox| - 1];
      PendingIsSorted(before, processed, c);
      forall x | x in Pending(before, processed, c) ensures x.num < |before| {
        PendingIsUnprocessed(before, processed, c, x);
      }
    }
  }

  /** Processing numbers no row of the inbox's conversation part has, changes no read. */
  lemma {:induction false} ProcessedElsewhere(inbox: seq<Item>, processed: set<nat>, more: set<nat>, c: ConversationId)
    requires forall i :: 0 <= i < |inbox| && inbox[i].conversation == c ==> inbox[i].num !in more
    ensures Pending(inbox, processed + more, c) == Pending(inbox, processed, c)
    decreases |inbox|
  {
    if inbox != [] {
      ProcessedElsewhere(inbox[..|inbox| - 1], processed, more, c);
    }
  }

  lemma NumsSnoc(items: seq<Item>, x: Item)
    ensures Nums(items + [x]) == Nums(items) + {x.num}
  {
    var all := items + [x];
    assert all[|items|] == x;
    forall i | 0 <= i < |items| ensures items[i].num in Nums(all) { assert all[i] == items[i]; }
  }

  /** Marking a prefix of a read leaves exactly the rest of it. */
  lemma {:induction false} MarkingAPrefix(inbox: seq<Item>, processed: set<nat>, c: ConversationId, k: nat)
    requires Numbered(inbox) && k <= |Pending(inbox, processed, c)|
    ensures Pending(inbox, processed + Nums(Pending(inbox, processed, c)[..k]), c) == Pending(inbox, processed, c)[k..]
    decreases |inbox|
  {
    if inbox != [] {
      var n := |inbox| - 1;
      var before := inbox[..n];
      var p, q := Pending(inbox, processed, c), Pending(before, processed, c);
      if k <= |q| {
        MarkingAPrefix(before, processed, c, k);
        assert p[..k] == q[..k];
        forall i | 0 <= i < k ensures q[i].num != n {
          PendingIsUnprocessed(before, processed, c, q[i]);
        }
      } else {
        MarkingAPrefix(before, processed, c, |q|);
        assert p == q + [inbox[n]] && p[..k] == p && q[..|q|] == q;
        NumsSnoc(q, inbox[n]);
        assert processed + Nums(p) == processed + Nums(q) + {n};
        ProcessedElsewhere(before, processed + Nums(q), {n}, c);
      }
    }
  }

  // ----- The invariant -----

  ghost predicate RowsOk(cfg: Config, s: State) {
    && Numbered(s.inbox)
    && (forall i :: 0 <= i < |s.inbox| ==> s.inbox[i].conversation == cfg.home(s.inbox[i].messageId))
    && (forall i, j :: 0 <= i < j < |s.inbox| ==> s.inbox[i].messageId != s.inbox[j].messageId)
    && (forall n :: n in s.processed ==> n < |s.inbox|)
  }

  ghost predicate PcOk(pending: seq<Item>, pc: Pc) {
    match pc
    case AtRead => true
    case AtSleep(p, _) => p != [] && p <= pending
    case AtReread(p, _) => p != [] && p <= pending
    case AtBatch(rest) => rest != [] && (forall i :: 0 <= i < |rest| ==> IsRun(rest[i])) && Flatten(rest) <= pending
    case AtMark(rest) => rest != [] && (forall i :: 0 <= i < |rest| ==> IsRun(rest[i])) && Flatten(rest) <= pending
    case Returned => false
  }

  ghost predicate DrainOk(cfg: Config, inbox: seq<Item>, processed: set<nat>, m: MessageId, d: Drain) {
    && d.conversation == cfg.home(m) && Contains(inbox, m)
    && (d.memory.Some? ==> d.memory.value == Replay(cfg, d.journal))
    && (d.status.Queued? ==> d.journal == [] && d.memory.None?)
    && (d.status.Running? ==> PcOk(Pending(inbox, processed, d.conversation), Replay(cfg, d.journal)))
    && (d.status.Finished? ==> forall i :: 0 <= i < |inbox| && inbox[i].messageId == m ==> i in processed)
  }

  ghost predicate DrainsOk(cfg: Config, inbox: seq<Item>, processed: set<nat>, drains: map<MessageId, Drain>) {
    forall m :: m in drains ==> DrainOk(cfg, inbox, processed, m, drains[m])
  }

  ghost predicate OneRunner(drains: map<MessageId, Drain>) {
    forall m, k | m in drains && k in drains && drains[m].status.Running? && drains[k].status.Running? ::
      drains[m].conversation == drains[k].conversation ==> m == k
  }

  ghost predicate ConservedAt(s: State, c: ConversationId) {
    Mine(s.inbox, c) == Flatten(Completed(s, c)) + Pending(s.inbox, s.processed, c)
  }

  /** A conversation's rows are the completed batches, in order, then what a read returns. */
  ghost predicate Conserved(s: State) {
    forall c :: ConservedAt(s, c)
  }

  ghost predicate RunsAt(s: State, c: ConversationId) {
    forall i :: 0 <= i < |Completed(s, c)| ==> IsRun(Completed(s, c)[i])
  }

  ghost predicate RunsCompleted(s: State) {
    forall c :: RunsAt(s, c)
  }

  ghost predicate EnqueueOk(cfg: Config, inbox: seq<Item>, drains: map<MessageId, Drain>, e: Enqueue) {
    && e.draft.conversation == cfg.home(e.draft.messageId)
    && (!e.pc.ToInsert? ==> Contains(inbox, e.draft.messageId))
    && (e.pc.Enqueued? ==> e.draft.messageId in drains)
  }

  ghost predicate EnqueuesOk(cfg: Config, s: State) {
    forall w :: w in s.enqueues ==> EnqueueOk(cfg, s.inbox, s.drains, s.enqueues[w])
  }

  ghost predicate Ok(cfg: Config, s: State) {
    && RowsOk(cfg, s) && DrainsOk(cfg, s.inbox, s.processed, s.drains) && OneRunner(s.drains)
    && Conserved(s) && RunsCompleted(s) && EnqueuesOk(cfg, s)
  }

  /** The clauses that only the inbox, the processed rows and the completed batches matter to. */
  lemma KeepHistory(s: State, t: State)
    requires Conserved(s) && RunsCompleted(s)
    requires t.inbox == s.inbox && t.processed == s.processed && t.completed == s.completed
    ensures Conserved(t) && RunsCompleted(t)
  {
    forall c: ConversationId ensures ConservedAt(t, c) && RunsAt(t, c) {
      assert ConservedAt(s, c) && RunsAt(s, c) && Completed(t, c) == Completed(s, c);
    }
  }

  lemma KeepEnqueues(cfg: Config, s: State, t: State)
    requires EnqueuesOk(cfg, s)
    requires t.inbox == s.inbox && t.enqueues == s.enqueues && s.drains.Keys <= t.drains.Keys
    ensures EnqueuesOk(cfg, t)
  {
    forall k | k in t.enqueues ensures EnqueueOk(cfg, t.inbox, t.drains, t.enqueues[k]) {
      assert EnqueueOk(cfg, s.inbox, s.drains, s.enqueues[k]);
    }
  }

  // ----- The enqueue workflows -----

  lemma OkStartEnqueue(cfg: Config, s: State, w: WorkflowId, d: Draft)
    requires Ok(cfg, s)
    ensures Ok(cfg, DoStartEnqueue(cfg, s, w, d))
  {
    KeepHistory(s, DoStartEnqueue(cfg, s, w, d));
  }

  lemma ContainsGrows(inbox: seq<Item>, inbox': seq<Item>)
    requires inbox <= inbox'
    ensures forall m :: Contains(inbox, m) ==> Contains(inbox', m)
  {
    forall m | Contains(inbox, m) ensures Contains(inbox', m) {
      var i :| 0 <= i < |inbox| && inbox[i].messageId == m;
      assert inbox'[i].messageId == m;
    }
  }

  /** A drain keeps its shape when rows arrive and its conversation's read is extended. */
  lemma DrainGrows(cfg: Config, inbox: seq<Item>, processed: set<nat>, inbox': seq<Item>, processed': set<nat>, m: MessageId, d: Drain)
    requires DrainOk(cfg, inbox, processed, m, d)
    requires inbox <= inbox' && processed <= processed'
    requires d.status.Running? ==> Pending(inbox, processed, d.conversation) <= Pending(inbox', processed', d.conversation)
    requires forall i :: |inbox| <= i < |inbox'| ==> inbox'[i].messageId != m
    ensures DrainOk(cfg, inbox', processed', m, d)
  {
    ContainsGrows(inbox, inbox');
    forall i | 0 <= i < |inbox'| && inbox'[i].messageId == m ensures i < |inbox| && inbox[i].messageId == m { }
  }

  lemma OkInsertRow(cfg: Config, s: State, w: WorkflowId)
    requires Ok(cfg, s)
    ensures Ok(cfg, DoInsertRow(s, w))
  {
    if w in s.enqueues && s.enqueues[w].pc.ToInsert? {
      var d := s.enqueues[w].draft;
      assert EnqueueOk(cfg, s.inbox, s.drains, s.enqueues[w]);
      if Contains(s.inbox, d.messageId) {
        KeepHistory(s, DoInsertRow(s, w));
      } else {
        OkNewRow(cfg, s, w);
      }
    }
  }

  lemma OkNewRow(cfg: Config, s: State, w: WorkflowId)
    requires Ok(cfg, s) && w in s.enqueues && s.enqueues[w].pc.ToInsert? && !Contains(s.inbox, s.enqueues[w].draft.messageId)
    requires s.enqueues[w].draft.conversation == cfg.home(s.enqueues[w].draft.messageId)
    ensures Ok(cfg, DoInsertRow(s, w))
  {
    var d := s.enqueues[w].draft;
    var t := DoInsertRow(s, w);
    var row := Item(|s.inbox|, d.conversation, d.kind, d.sender, d.messageId);
    assert t.inbox == s.inbox + [row] && t.inbox[..|s.inbox|] == s.inbox && t.inbox[|s.inbox|] == row;
    ContainsGrows(s.inbox, t.inbox);
    forall m | m in s.drains ensures DrainOk(cfg, t.inbox, t.processed, m, s.drains[m]) {
      DrainGrows(cfg, s.inbox, s.processed, t.inbox, t.processed, m, s.drains[m]);
    }
    forall c: ConversationId ensures ConservedAt(t, c) && RunsAt(t, c) {
      assert ConservedAt(s, c) && RunsAt(s, c) && Completed(t, c) == Completed(s, c);
    }
    forall k | k in t.enqueues ensures EnqueueOk(cfg, t.inbox, t.drains, t.enqueues[k]) {
      assert k in s.enqueues && EnqueueOk(cfg, s.inbox, s.drains, s.enqueues[k]);
      assert Contains(t.inbox, d.messageId);
    }
  }

  lemma OkStartDrain(cfg: Config, s: State, w: WorkflowId)
    requires Ok(cfg, s)
    ensures Ok(cfg, DoStartDrain(s, w))
  {
    if w in s.enqueues && s.enqueues[w].pc.ToStartDrain? {
      var d := s.enqueues[w].draft;
      assert EnqueueOk(cfg, s.inbox, s.drains, s.enqueues[w]);
      var t := DoStartDrain(s, w);
      KeepHistory(s, t);
      assert DrainOk(cfg, s.inbox, s.processed, d.messageId, Drain(d.conversation, Queued, [], None));
      forall k | k in t.enqueues ensures EnqueueOk(cfg, t.inbox, t.drains, t.enqueues[k]) {
        assert k != w ==> EnqueueOk(cfg, s.inbox, s.drains, s.enqueues[k]);
      }
    }
  }

  // ----- The drains -----

  /** Replacing one drain by one that fits, in a state that is otherwise as it was. */
  lemma OkReplace(cfg: Config, s: State, m: MessageId, d: Drain)
    requires Ok(cfg, s) && m in s.drains && d.conversation == s.drains[m].conversation
    requires DrainOk(cfg, s.inbox, s.processed, m, d)
    requires d.status.Running? ==> s.drains[m].status.Running?
    ensures Ok(cfg, s.(drains := s.drains[m := d]))
  {
    var t := s.(drains := s.drains[m := d]);
    KeepHistory(s, t);
    KeepEnqueues(cfg, s, t);
  }

  lemma BeginDrains(cfg: Config, s: State, m: MessageId)
    requires DrainsOk(cfg, s.inbox, s.processed, s.drains) && OneRunner(s.drains)
    ensures var t := DoBeginDrain(s, m);
      DrainsOk(cfg, t.inbox, t.processed, t.drains) && OneRunner(t.drains) && s.drains.Keys <= t.drains.Keys
  {
    var t := DoBeginDrain(s, m);
    if t != s {
      assert DrainOk(cfg, s.inbox, s.processed, m, s.drains[m]);
      assert DrainOk(cfg, s.inbox, s.processed, m, t.drains[m]);
    }
  }

  lemma OkBeginDrain(cfg: Config, s: State, m: MessageId)
    requires Ok(cfg, s)
    ensures Ok(cfg, DoBeginDrain(s, m))
  {
    BeginDrains(cfg, s, m);
    KeepHistory(s, DoBeginDrain(s, m));
    KeepEnqueues(cfg, s, DoBeginDrain(s, m));
  }

  /** When the read is empty, every row of the drain's own message is processed. */
  lemma EmptyReadMeansProcessed(cfg: Config, s: State, m: MessageId)
    requires RowsOk(cfg, s) && Pending(s.inbox, s.processed, cfg.home(m)) == []
    ensures forall i :: 0 <= i < |s.inbox| && s.inbox[i].messageId == m ==> i in s.processed
  {
    forall i | 0 <= i < |s.inbox| && s.inbox[i].messageId == m ensures i in s.processed {
      PendingIsUnprocessed(s.inbox, s.processed, cfg.home(m), s.inbox[i]);
    }
  }

  /** The drain after an answer whose successor pc fits the read. */
  lemma TakeFits(cfg: Config, inbox: seq<Item>, processed: set<nat>, m: MessageId, d: Drain, a: Answer)
    requires DrainOk(cfg, inbox, processed, m, d) && d.status.Running? && d.memory.Some?
    requires var pc := Advance(cfg, d.memory.value, a);
      if pc.Returned? then forall i :: 0 <= i < |inbox| && inbox[i].messageId == m ==> i in processed
      else PcOk(Pending(inbox, processed, d.conversation), pc)
    ensures DrainOk(cfg, inbox, processed, m, Take(cfg, d, a))
  {
    ReplaySnoc(cfg, d.journal, a);
  }

  lemma OkSleep(cfg: Config, s: State, m: MessageId)
    requires Ok(cfg, s)
    ensures Ok(cfg, DoSleep(cfg, s, m))
  {
    if Live(s, m) && s.drains[m].memory.value.AtSleep? {
      TakeFits(cfg, s.inbox, s.processed, m, s.drains[m], Slept);
      OkReplace(cfg, s, m, Take(cfg, s.drains[m], Slept));
    }
  }

  /** A read leads to a pc that fits it, or to the end when it is empty. */
  lemma ReadFits(cfg: Config, s: State, c: ConversationId, pc: Pc)
    requires RowsOk(cfg, s) && PcOk(Pending(s.inbox, s.processed, c), pc) && (pc.AtRead? || pc.AtReread?)
    ensures var p := Pending(s.inbox, s.processed, c);
      var next := Advance(cfg, pc, Rows(p));
      if next.Returned? then p == [] else PcOk(p, next)
  {
    var p := Pending(s.inbox, s.processed, c);
    PendingIsSorted(s.inbox, s.processed, c);
    SortOfSorted(p);
    BatchesCut(p);
  }

  lemma OkRead(cfg: Config, s: State, m: MessageId)
    requires Ok(cfg, s)
    ensures Ok(cfg, DoRead(cfg, s, m))
  {
    if DoRead(cfg, s, m) != s {
      var d := s.drains[m];
      var p := Pending(s.inbox, s.processed, d.conversation);
      assert DrainOk(cfg, s.inbox, s.processed, m, d);
      ReadFits(cfg, s, d.conversation, d.memory.value);
      if p == [] { EmptyReadMeansProcessed(cfg, s, m); }
      TakeFits(cfg, s.inbox, s.processed, m, d, Rows(p));
      OkReplace(cfg, s, m, Take(cfg, d, Rows(p)));
    }
  }

  lemma OkStartTurn(cfg: Config, s: State, m: MessageId)
    requires Ok(cfg, s)
    ensures Ok(cfg, DoStartTurn(s, m))
  {
    KeepHistory(s, DoStartTurn(s, m));
  }

  lemma OkFinishTurn(cfg: Config, s: State, m: MessageId)
    requires Ok(cfg, s)
    ensures Ok(cfg, DoFinishTurn(cfg, s, m))
  {
    if DoFinishTurn(cfg, s, m) != s {
      var d := s.drains[m];
      assert DrainOk(cfg, s.inbox, s.processed, m, d);
      TakeFits(cfg, s.inbox, s.processed, m, d, BatchDone);
      OkReplace(cfg, s, m, Take(cfg, d, BatchDone));
    }
  }

  lemma OkFailTurn(cfg: Config, s: State, m: MessageId)
    requires Ok(cfg, s)
    ensures Ok(cfg, DoFailTurn(s, m))
  {
    if DoFailTurn(s, m) != s {
      assert DrainOk(cfg, s.inbox, s.processed, m, s.drains[m]);
      OkReplace(cfg, s, m, s.drains[m].(status := Failed));
    }
  }

  /** The batch a drain is about to mark is a prefix of the read; the mark removes exactly it. */
  lemma MarkReads(cfg: Config, s: State, c: ConversationId, rest: seq<seq<Item>>)
    requires RowsOk(cfg, s) && PcOk(Pending(s.inbox, s.processed, c), AtMark(rest))
    ensures var p := Pending(s.inbox, s.processed, c);
      var after := s.processed + Nums(rest[0]);
      && rest[0] <= p && IsRun(rest[0])
      && Pending(s.inbox, after, c) == p[|rest[0]|..] && Flatten(rest[1..]) <= p[|rest[0]|..]
      && (forall k :: k != c ==> Pending(s.inbox, after, k) == Pending(s.inbox, s.processed, k))
      && (forall n :: n in Nums(rest[0]) ==> n < |s.inbox|)
  {
    var p := Pending(s.inbox, s.processed, c);
    var batch := rest[0];
    assert Flatten(rest) == batch + Flatten(rest[1..]);
    assert batch == p[..|batch|];
    MarkingAPrefix(s.inbox, s.processed, c, |batch|);
    forall n | n in Nums(batch) ensures n < |s.inbox| && s.inbox[n].conversation == c {
      var i :| 0 <= i < |batch| && batch[i].num == n;
      PendingIsUnprocessed(s.inbox, s.processed, c, p[i]);
    }
    forall k | k != c ensures Pending(s.inbox, s.processed + Nums(batch), k) == Pending(s.inbox, s.processed, k) {
      ProcessedElsewhere(s.inbox, s.processed, Nums(batch), k);
    }
  }

  lemma OkMark(cfg: Config, s: State, m: MessageId)
    requires Ok(cfg, s)
    ensures Ok(cfg, DoMark(cfg, s, m))
  {
    if DoMark(cfg, s, m) != s {
      var d := s.drains[m];
      var rest: seq<seq<Item>> := d.memory.value.rest;
      assert DrainOk(cfg, s.inbox, s.processed, m, d);
      MarkReads(cfg, s, d.conversation, rest);
      MarkDrains(cfg, s, m);
      MarkHistory(cfg, s, m);
      var t := DoMark(cfg, s, m);
      forall k | k in t.enqueues ensures EnqueueOk(cfg, t.inbox, t.drains, t.enqueues[k]) {
        assert EnqueueOk(cfg, s.inbox, s.drains, s.enqueues[k]);
      }
    }
  }

  lemma MarkDrains(cfg: Config, s: State, m: MessageId)
    requires RowsOk(cfg, s) && DrainsOk(cfg, s.inbox, s.processed, s.drains) && OneRunner(s.drains)
    requires Live(s, m) && s.drains[m].memory.value.AtMark? && s.drains[m].memory.value.rest != []
    ensures DrainsOk(cfg, s.inbox, DoMark(cfg, s, m).processed, DoMark(cfg, s, m).drains)
  {
    var d := s.drains[m];
    var rest: seq<seq<Item>> := d.memory.value.rest;
    var after := s.processed + Nums(rest[0]);
    assert DrainOk(cfg, s.inbox, s.processed, m, d);
    MarkReads(cfg, s, d.conversation, rest);
    ReplaySnoc(cfg, d.journal, Marked);
    assert DrainOk(cfg, s.inbox, after, m, Take(cfg, d, Marked));
    forall k | k in s.drains && k != m ensures DrainOk(cfg, s.inbox, after, k, s.drains[k]) {
      assert DrainOk(cfg, s.inbox, s.processed, k, s.drains[k]);
      DrainGrows(cfg, s.inbox, s.processed, s.inbox, after, k, s.drains[k]);
    }
  }

  lemma MarkHistoryAt(cfg: Config, s: State, m: MessageId, c: ConversationId)
    requires RowsOk(cfg, s) && ConservedAt(s, c) && RunsAt(s, c)
    requires Live(s, m) && s.drains[m].memory.value.AtMark? && s.drains[m].memory.value.rest != []
    requires PcOk(Pending(s.inbox, s.processed, s.drains[m].conversation), s.drains[m].memory.value)
    ensures ConservedAt(DoMark(cfg, s, m), c) && RunsAt(DoMark(cfg, s, m), c)
  {
    var t := DoMark(cfg, s, m);
    var d: Drain := s.drains[m];
    MarkReads(cfg, s, d.conversation, d.memory.value.rest);
    if c == d.conversation {
      var batch: seq<Item> := d.memory.value.rest[0];
      var p := Pending(s.inbox, s.processed, c);
      FlattenSnoc(Completed(s, c), batch);
      assert p == batch + p[|batch|..];
      assert Completed(t, c) == Completed(s, c) + [batch];
    } else {
      assert Completed(t, c) == Completed(s, c);
    }
  }

  lemma MarkHistory(cfg: Config, s: State, m: MessageId)
    requires RowsOk(cfg, s) && Conserved(s) && RunsCompleted(s)
    requires Live(s, m) && s.drains[m].memory.value.AtMark? && s.drains[m].memory.value.rest != []
    requires PcOk(Pending(s.inbox, s.processed, s.drains[m].conversation), s.drains[m].memory.value)
    ensures Conserved(DoMark(cfg, s, m)) && RunsCompleted(DoMark(cfg, s, m))
  {
    forall c: ConversationId ensures ConservedAt(DoMark(cfg, s, m), c) && RunsAt(DoMark(cfg, s, m), c) {
      MarkHistoryAt(cfg, s, m, c);
    }
  }

  lemma OkCrash(cfg: Config, s: State)
    requires Ok(cfg, s)
    ensures Ok(cfg, DoCrash(s))
  {
    var t := DoCrash(s);
    KeepHistory(s, t);
    forall k | k in t.drains ensures DrainOk(cfg, t.inbox, t.processed, k, t.drains[k]) {
      assert DrainOk(cfg, s.inbox, s.processed, k, s.drains[k]);
    }
    forall k | k in t.enqueues ensures EnqueueOk(cfg, t.inbox, t.drains, t.enqueues[k]) {
      assert EnqueueOk(cfg, s.inbox, s.drains, s.enqueues[k]);
    }
  }

  lemma OkRecover(cfg: Config, s: State, m: MessageId)
    requires Ok(cfg, s)
    ensures Ok(cfg, DoRecover(cfg, s, m))
  {
    if DoRecover(cfg, s, m) != s {
      var d := s.drains[m];
      assert DrainOk(cfg, s.inbox, s.processed, m, d);
      OkReplace(cfg, s, m, d.(memory := Some(Replay(cfg, d.journal))));
    }
  }

  lemma OkStep(cfg: Config, s: State, l: Label)
    requires Ok(cfg, s)
    ensures Ok(cfg, Next(cfg, s, l))
  {
    match l
    case StartEnqueue(w, d) => OkStartEnqueue(cfg, s, w, d);
    case InsertRow(w) => OkInsertRow(cfg, s, w);
    case StartDrain(w) => OkStartDrain(cfg, s, w);
    case BeginDrain(m) => OkBeginDrain(cfg, s, m);
    case Sleep(m) => OkSleep(cfg, s, m);
    case Read(m) => OkRead(cfg, s, m);
    case StartTurn(m) => OkStartTurn(cfg, s, m);
    case FinishTurn(m) => OkFinishTurn(cfg, s, m);
    case FailTurn(m) => OkFailTurn(cfg, s, m);
    case Mark(m) => OkMark(cfg, s, m);
    case Crash => OkCrash(cfg, s);
    case Recover(m) => OkRecover(cfg, s, m);
  }
}
