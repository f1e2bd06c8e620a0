/**
 The inbox table and the drain loop over it, run by one worker.  What other
 workers insert meanwhile is the parameter `arrivals`: its k-th entry lands just
 before the k-th read.  `Lane` covers the interleavings with crashes and other drains;
 the ghost journals say that the code takes that drain workflow's steps, over the
 reads it really made.
 */
module Drain {
  import opened Debounce
  import L = Lane
  import LS = LaneSafety
  import LQ = LaneQuiet

  predicate HasId(items: seq<Item>, m: string) {
    L.Contains(items, m)
  }

  /** Insert-if-absent on the message id, in commit order. */
  function InsertRow(items: seq<Item>, d: L.Draft): seq<Item> {
    if HasId(items, d.messageId) then items
    else items + [Item(|items|, d.conversation, d.kind, d.sender, d.messageId)]
  }

  function InsertRows(items: seq<Item>, drafts: seq<L.Draft>): seq<Item>
    decreases |drafts|
  {
    if drafts == [] then items else InsertRow(InsertRows(items, drafts[..|drafts| - 1]), drafts[|drafts| - 1])
  }

  class Inbox {
    var items: seq<Item>
    var processed: set<nat>

    predicate Valid()
      reads this
    {
      LS.Numbered(items) && forall n :: n in processed ==> n < |items|
    }

    constructor ()
      ensures Valid() && items == [] && processed == {}
    {
      items, processed := [], {};
    }

    method InsertItem(d: L.Draft) returns (inserted: bool)
      requires Valid()
      modifies this`items
      ensures Valid() && inserted == !HasId(old(items), d.messageId) && items == InsertRow(old(items), d)
    {
      inserted := true;
      for i := 0 to |items|
        invariant inserted <==> forall k :: 0 <= k < i ==> items[k].messageId != d.messageId
        invariant items == old(items)
      {
        if items[i].messageId == d.messageId { inserted := false; }
      }
      if inserted {
        items := items + [Item(|items|, d.conversation, d.kind, d.sender, d.messageId)];
      }
    }

    method ReadPending(c: string) returns (rows: seq<Item>)
      requires Valid()
      ensures rows == L.Pending(items, processed, c)
    {
      rows := [];
      for i := 0 to |items|
        invariant rows == L.Pending(items[..i], processed, c)
      {
        assert items[..i + 1][..i] == items[..i];
        if items[i].conversation == c && items[i].num !in processed { rows := rows + [items[i]]; }
      }
      assert items[..|items|] == items;
    }

    method MarkProcessed(nums: set<nat>)
      requires Valid() && forall n :: n in nums ==> n < |items|
      modifies this`processed
      ensures Valid() && processed == old(processed) + nums
    {
      processed := processed + nums;
    }
  }

  lemma {:induction false} InsertRowsExtends(items: seq<Item>, drafts: seq<L.Draft>)
    requires LS.Numbered(items)
    ensures items <= InsertRows(items, drafts) && LS.Numbered(InsertRows(items, drafts))
    decreases |drafts|
  {
    if drafts != [] { InsertRowsExtends(items, drafts[..|drafts| - 1]); }
  }

  /** New rows extend every read by the same rows, whatever was processed before them. */
  lemma {:induction false} ReadExtends(items: seq<Item>, items': seq<Item>, processed: set<nat>, c: string)
    requires items <= items' && LS.Numbered(items') && forall n :: n in processed ==> n < |items|
    ensures L.Pending(items', processed, c) == L.Pending(items, processed, c) + L.Mine(items'[|items|..], c)
    decreases |items'|
  {
    if |items'| == |items| {
      assert items' == items && items'[|items|..] == [];
    } else {
      var n := |items'| - 1;
      var tail := items'[|items|..];
      assert items'[..n][|items|..] == tail[..|tail| - 1];
      ReadExtends(items, items'[..n], processed, c);
    }
  }

  function Left(arrivals: seq<seq<L.Draft>>, taken: nat): nat {
    if taken < |arrivals| then |arrivals| - taken else 0
  }

  /** The k-th read: first whatever arrived before it, then the query. */
  method Read(inbox: Inbox, c: string, arrivals: seq<seq<L.Draft>>, k: nat) returns (rows: seq<Item>)
    requires inbox.Valid()
    modifies inbox`items
    ensures inbox.Valid() && old(inbox.items) <= inbox.items && rows == L.Pending(inbox.items, inbox.processed, c)
    ensures inbox.items == if k < |arrivals| then InsertRows(old(inbox.items), arrivals[k]) else old(inbox.items)
  {
    if k < |arrivals| {
      var drafts := arrivals[k];
      for i := 0 to |drafts|
        invariant inbox.Valid() && old(inbox.items) <= inbox.items
        invariant inbox.items == InsertRows(old(inbox.items), drafts[..i])
      {
        assert drafts[..i + 1][..i] == drafts[..i];
        var _ := inbox.InsertItem(drafts[i]);
      }
      assert drafts[..|drafts|] == drafts;
    }
    rows := inbox.ReadPending(c);
  }

  // ----- The journal of what the code did -----

  /** The table, the marks, and how many reads were made. */
  datatype World = World(items: seq<Item>, processed: set<nat>, taken: nat)

  function Arrive(items: seq<Item>, arrivals: seq<seq<L.Draft>>, k: nat): seq<Item> {
    if k < |arrivals| then InsertRows(items, arrivals[k]) else items
  }

  /** What a journaled step does to the table. */
  function WorldStep(arrivals: seq<seq<L.Draft>>, w: World, pc: L.Pc, a: L.Answer): World {
    match a
    case Rows(_) => w.(items := Arrive(w.items, arrivals, w.taken), taken := w.taken + 1)
    case Marked => if pc.AtMark? && pc.rest != [] then w.(processed := w.processed + L.Nums(pc.rest[0])) else w
    case _ => w
  }

  function WorldAfter(cfg: L.Config, arrivals: seq<seq<L.Draft>>, start: World, journal: seq<L.Answer>): World
    decreases |journal|
  {
    if journal == [] then start
    else
      var n := |journal| - 1;
      WorldStep(arrivals, WorldAfter(cfg, arrivals, start, journal[..n]), L.Replay(cfg, journal[..n]), journal[n])
  }

  /** Every answer was asked for, and every read returned what was unprocessed then. */
  predicate Happened(cfg: L.Config, c: string, arrivals: seq<seq<L.Draft>>, start: World, journal: seq<L.Answer>)
    decreases |journal|
  {
    journal == [] ||
    var n := |journal| - 1;
    var w := WorldAfter(cfg, arrivals, start, journal);
    && Happened(cfg, c, arrivals, start, journal[..n]) && LQ.Answers(L.Replay(cfg, journal[..n]), journal[n])
    && (journal[n].Rows? ==> journal[n].rows == L.Pending(w.items, w.processed, c))
  }

  /** The journal happened, left the table as `w`, and the workflow is at `pc`. */
  predicate Traced(cfg: L.Config, c: string, arrivals: seq<seq<L.Draft>>, start: World, journal: seq<L.Answer>, w: World, pc: L.Pc) {
    Happened(cfg, c, arrivals, start, journal) && WorldAfter(cfg, arrivals, start, journal) == w && L.Replay(cfg, journal) == pc
  }

  lemma TraceStep(cfg: L.Config, c: string, arrivals: seq<seq<L.Draft>>, start: World, journal: seq<L.Answer>, w: World, pc: L.Pc, a: L.Answer)
    requires Traced(cfg, c, arrivals, start, journal, w, pc) && LQ.Answers(pc, a)
    requires var u := WorldStep(arrivals, w, pc, a);
      a.Rows? ==> a.rows == L.Pending(u.items, u.processed, c)
    ensures Traced(cfg, c, arrivals, start, journal + [a], WorldStep(arrivals, w, pc, a), L.Advance(cfg, pc, a))
  {
    assert (journal + [a])[..|journal|] == journal;
  }

  lemma {:induction false} TracedIsOrderly(cfg: L.Config, c: string, arrivals: seq<seq<L.Draft>>, start: World, journal: seq<L.Answer>)
    requires Happened(cfg, c, arrivals, start, journal)
    ensures LQ.Orderly(cfg, journal)
    decreases |journal|
  {
    if journal != [] { TracedIsOrderly(cfg, c, arrivals, start, journal[..|journal| - 1]); }
  }

  /** What was consumed so far, then what a read returns, is every row unprocessed at the start. */
  ghost predicate Consumed(items: seq<Item>, start: set<nat>, processed: set<nat>, c: string, batches: seq<seq<Item>>) {
    && L.Pending(items, start, c) == Flatten(batches) + L.Pending(items, processed, c)
    && (forall i :: 0 <= i < |batches| ==> IsRun(batches[i]))
  }

  lemma ConsumedGrows(items: seq<Item>, items': seq<Item>, start: set<nat>, processed: set<nat>, c: string, batches: seq<seq<Item>>)
    requires Consumed(items, start, processed, c, batches) && items <= items' && LS.Numbered(items')
    requires start <= processed && forall n :: n in processed ==> n < |items|
    ensures Consumed(items', start, processed, c, batches)
    ensures L.Pending(items, processed, c) <= L.Pending(items', processed, c)
  {
    ReadExtends(items, items', start, c);
    ReadExtends(items, items', processed, c);
  }

  lemma ConsumedNothing(items: seq<Item>, start: set<nat>, c: string)
    ensures Consumed(items, start, start, c, [])
  {
  }

  lemma ConsumedAll(items: seq<Item>, start: set<nat>, processed: set<nat>, c: string, batches: seq<seq<Item>>)
    requires Consumed(items, start, processed, c, batches) && L.Pending(items, processed, c) == []
    ensures Flatten(batches) == L.Pending(items, start, c) && forall i :: 0 <= i < |batches| ==> IsRun(batches[i])
  {
  }

  lemma ConsumedBatch(items: seq<Item>, start: set<nat>, processed: set<nat>, c: string, batches: seq<seq<Item>>, batch: seq<Item>)
    requires Consumed(items, start, processed, c, batches) && LS.Numbered(items)
    requires IsRun(batch) && batch <= L.Pending(items, processed, c)
    ensures L.Pending(items, processed + L.Nums(batch), c) == L.Pending(items, processed, c)[|batch|..]
    ensures Consumed(items, start, processed + L.Nums(batch), c, batches + [batch])
    ensures forall n :: n in L.Nums(batch) ==> n < |items|
  {
    hide L.Pending, IsRun;
    var p := L.Pending(items, processed, c);
    assert batch == p[..|batch|] && p == batch + p[|batch|..];
    LS.MarkingAPrefix(items, processed, c, |batch|);
    FlattenSnoc(batches, batch);
    forall n | n in L.Nums(batch) ensures n < |items| {
      var i :| 0 <= i < |batch| && batch[i].num == n;
      LS.PendingIsUnprocessed(items, processed, c, p[i]);
    }
  }

  /**
   The silence window: read again after each window while bubbles still arrive, up
   to the cap.  Returns the last read, the wait, and how many reads were taken.  It
   stops exactly where the workflow of the journal stops waiting: with a read that
   brought nothing more, or at the cap.
   */
  method WaitForQuiet(inbox: Inbox, c: string, cfg: L.Config, arrivals: seq<seq<L.Draft>>, first: seq<Item>, taken: nat,
                      ghost start: World, ghost before: seq<L.Answer>)
    returns (pending: seq<Item>, waitedMs: int, takenAfter: nat, ghost journal: seq<L.Answer>)
    requires inbox.Valid() && 0 < cfg.silenceWindowMs && first == L.Pending(inbox.items, inbox.processed, c) && first != []
    requires Traced(cfg, c, arrivals, start, before, World(inbox.items, inbox.processed, taken), L.AtSleep(first, 0))
    modifies inbox`items
    ensures inbox.Valid() && old(inbox.items) <= inbox.items
    ensures first <= pending == L.Pending(inbox.items, inbox.processed, c)
    ensures WaitOk(cfg, waitedMs)
    ensures taken < takenAfter && (taken >= |arrivals| ==> inbox.items == old(inbox.items))
    ensures before <= journal && Traced(cfg, c, arrivals, start, journal, World(inbox.items, inbox.processed, takenAfter), L.ToBatches(pending))
    ensures LQ.QuietEnd(cfg, journal) && journal[|journal| - 1].rows == pending && waitedMs == LQ.Elapsed(cfg, LQ.Windows(journal))
  {
    hide L.ToBatches, Traced, L.Pending, LQ.QuietEnd, LQ.Windows, LQ.Elapsed, InsertRows, LS.Numbered;
    pending, waitedMs, takenAfter, journal := first, 0, taken, before;
    while true
      invariant inbox.Valid() && old(inbox.items) <= inbox.items
      invariant first <= pending == L.Pending(inbox.items, inbox.processed, c)
      invariant waitedMs == 0 || cfg.silenceWindowMs <= waitedMs < cfg.maxQuietWaitMs
      invariant taken <= takenAfter && (taken >= |arrivals| ==> inbox.items == old(inbox.items))
      invariant before <= journal
      invariant Traced(cfg, c, arrivals, start, journal, World(inbox.items, inbox.processed, takenAfter), L.AtSleep(pending, waitedMs))
      decreases Left(arrivals, takenAfter)
    {
      ghost var items0, w := inbox.items, World(inbox.items, inbox.processed, takenAfter);
      waitedMs := waitedMs + cfg.silenceWindowMs;
      var next := Read(inbox, c, arrivals, takenAfter);
      ReadExtends(items0, inbox.items, inbox.processed, c);
      assert takenAfter >= |arrivals| ==> next == pending;
      WindowStep(cfg, c, arrivals, start, journal, w, pending, waitedMs - cfg.silenceWindowMs, next);
      journal := journal + [L.Slept, L.Rows(next)];
      takenAfter := takenAfter + 1;
      var stillArriving := |next| > |pending|;
      pending := next;
      if !stillArriving || waitedMs >= cfg.maxQuietWaitMs { return; }
    }
  }

  /** A read that starts a wait, or ends the drain. */
  lemma FirstReadStep(cfg: L.Config, c: string, arrivals: seq<seq<L.Draft>>, start: World, journal: seq<L.Answer>, w: World, rows: seq<Item>)
    requires Traced(cfg, c, arrivals, start, journal, w, L.AtRead) && rows == L.Pending(Arrive(w.items, arrivals, w.taken), w.processed, c)
    ensures Traced(cfg, c, arrivals, start, journal + [L.Rows(rows)], World(Arrive(w.items, arrivals, w.taken), w.processed, w.taken + 1),
                   if rows == [] then L.Returned else L.AtSleep(rows, 0))
  {
    hide Traced, L.Pending;
    TraceStep(cfg, c, arrivals, start, journal, w, L.AtRead, L.Rows(rows));
  }

  /** One window and the read behind it. */
  lemma WindowStep(cfg: L.Config, c: string, arrivals: seq<seq<L.Draft>>, start: World, journal: seq<L.Answer>, w: World,
                   pending: seq<Item>, waited: int, next: seq<Item>)
    requires Traced(cfg, c, arrivals, start, journal, w, L.AtSleep(pending, waited))
    requires next == L.Pending(Arrive(w.items, arrivals, w.taken), w.processed, c) && pending <= next && pending != []
    ensures var goesOn := |next| > |pending| && waited + cfg.silenceWindowMs < cfg.maxQuietWaitMs;
      var after := journal + [L.Slept, L.Rows(next)];
      && Traced(cfg, c, arrivals, start, after, World(Arrive(w.items, arrivals, w.taken), w.processed, w.taken + 1),
                if goesOn then L.AtSleep(next, waited + cfg.silenceWindowMs) else L.ToBatches(next))
      && LQ.Elapsed(cfg, LQ.Windows(after)) == waited + cfg.silenceWindowMs
      && (!goesOn ==> LQ.QuietEnd(cfg, after))
  {
    var slept, after := journal + [L.Slept], journal + [L.Slept, L.Rows(next)];
    assert after == slept + [L.Rows(next)] && after[..|slept|] == slept;
    hide L.Pending, L.ToBatches, Happened;
    TraceStep(cfg, c, arrivals, start, journal, w, L.AtSleep(pending, waited), L.Slept);
    var asleep := L.AtReread(pending, waited + cfg.silenceWindowMs);
    TraceStep(cfg, c, arrivals, start, slept, w, asleep, L.Rows(next));
    TracedIsOrderly(cfg, c, arrivals, start, slept);
    LQ.OrderlyIsTracked(cfg, slept);
    hide LQ.Elapsed;
  }

  /** The first i groups are processed and marked, the others are what is left of the read. */
  ghost predicate Midway(cfg: L.Config, c: string, arrivals: seq<seq<L.Draft>>, from: World, start: set<nat>, groups: seq<seq<Item>>,
                         i: nat, w: World, batches: seq<seq<Item>>, journal: seq<L.Answer>)
    requires i <= |groups|
  {
    && LS.Numbered(w.items) && (forall n :: n in w.processed ==> n < |w.items|)
    && Consumed(w.items, start, w.processed, c, batches)
    && L.Pending(w.items, w.processed, c) == Flatten(groups[i..])
    && (forall k :: 0 <= k < |groups| ==> IsRun(groups[k]))
    && Traced(cfg, c, arrivals, from, journal, w, if i < |groups| then L.AtBatch(groups[i..]) else L.AtRead)
  }

  lemma MidwayStep(cfg: L.Config, c: string, arrivals: seq<seq<L.Draft>>, from: World, start: set<nat>, groups: seq<seq<Item>>,
                   i: nat, w: World, batches: seq<seq<Item>>, journal: seq<L.Answer>)
    requires i < |groups| && Midway(cfg, c, arrivals, from, start, groups, i, w, batches, journal)
    ensures forall n :: n in L.Nums(groups[i]) ==> n < |w.items|
    ensures Midway(cfg, c, arrivals, from, start, groups, i + 1, w.(processed := w.processed + L.Nums(groups[i])),
                   batches + [groups[i]], journal + [L.BatchDone, L.Marked])
  {
    hide Traced, Consumed, L.Pending, IsRun, L.Nums, LS.Numbered;
    NextGroup(groups, i);
    ConsumedBatch(w.items, start, w.processed, c, batches, groups[i]);
    BatchSteps(cfg, c, arrivals, from, journal, w, groups[i..]);
    assert groups[i..][1..] == groups[i + 1..] && groups[i..][0] == groups[i];
  }

  /** Processes and marks the groups of a read, one after the other. */
  method RunBatches(inbox: Inbox, c: string, pending: seq<Item>, done: seq<seq<Item>>, ghost start: set<nat>, ghost cfg: L.Config,
                    ghost arrivals: seq<seq<L.Draft>>, ghost from: World, ghost before: seq<L.Answer>, ghost taken: nat)
    returns (batches: seq<seq<Item>>, ghost journal: seq<L.Answer>)
    requires inbox.Valid() && pending == L.Pending(inbox.items, inbox.processed, c) && pending != []
    requires Consumed(inbox.items, start, inbox.processed, c, done)
    requires Traced(cfg, c, arrivals, from, before, World(inbox.items, inbox.processed, taken), L.ToBatches(pending))
    modifies inbox`processed
    ensures inbox.Valid() && old(inbox.processed) <= inbox.processed
    ensures batches == done + Batches(pending)
    ensures L.Pending(inbox.items, inbox.processed, c) == [] && Consumed(inbox.items, start, inbox.processed, c, batches)
    ensures before <= journal && Traced(cfg, c, arrivals, from, journal, World(inbox.items, inbox.processed, taken), L.AtRead)
  {
    hide Midway, L.Pending, Consumed, Traced, Batches, L.Nums, IsRun, L.ToBatches, SortByNum, Flatten;
    var groups := Group(inbox, c, pending);
    MidwayStart(cfg, c, arrivals, from, start, groups, pending, World(inbox.items, inbox.processed, taken), done, before);
    batches, journal := done, before;
    for i := 0 to |groups|
      invariant inbox.Valid() && old(inbox.processed) <= inbox.processed
      invariant batches == done + groups[..i] && before <= journal
      invariant Midway(cfg, c, arrivals, from, start, groups, i, World(inbox.items, inbox.processed, taken), batches, journal)
    {
      MidwayStep(cfg, c, arrivals, from, start, groups, i, World(inbox.items, inbox.processed, taken), batches, journal);
      journal := journal + [L.BatchDone, L.Marked];
      inbox.MarkProcessed(L.Nums(groups[i]));
      batches := batches + [groups[i]];
    }
    MidwayEnd(cfg, c, arrivals, from, start, groups, World(inbox.items, inbox.processed, taken), batches, journal);
    assert groups[..|groups|] == groups;
  }

  lemma MidwayStart(cfg: L.Config, c: string, arrivals: seq<seq<L.Draft>>, from: World, start: set<nat>, groups: seq<seq<Item>>,
                    pending: seq<Item>, w: World, done: seq<seq<Item>>, journal: seq<L.Answer>)
    requires LS.Numbered(w.items) && (forall n :: n in w.processed ==> n < |w.items|)
    requires Consumed(w.items, start, w.processed, c, done) && pending == L.Pending(w.items, w.processed, c) && pending != []
    requires Traced(cfg, c, arrivals, from, journal, w, L.ToBatches(pending))
    requires SortByNum(pending) == pending && groups == Batches(pending) && Flatten(groups) == pending
    requires forall i :: 0 <= i < |groups| ==> IsRun(groups[i])
    ensures Midway(cfg, c, arrivals, from, start, groups, 0, w, done, journal)
  {
    GroupsWaiting(pending, groups);
    assert groups[0..] == groups;
    hide L.Pending, Consumed, Traced, Batches, L.Nums, IsRun, L.ToBatches, SortByNum;
  }

  lemma MidwayEnd(cfg: L.Config, c: string, arrivals: seq<seq<L.Draft>>, from: World, start: set<nat>, groups: seq<seq<Item>>,
                  w: World, batches: seq<seq<Item>>, journal: seq<L.Answer>)
    requires Midway(cfg, c, arrivals, from, start, groups, |groups|, w, batches, journal)
    ensures L.Pending(w.items, w.processed, c) == [] && Consumed(w.items, start, w.processed, c, batches)
    ensures Traced(cfg, c, arrivals, from, journal, w, L.AtRead)
  {
    assert groups[|groups|..] == [];
  }

  lemma GroupsWaiting(pending: seq<Item>, groups: seq<seq<Item>>)
    requires SortByNum(pending) == pending && pending != [] && groups == Batches(pending)
    ensures groups != [] && L.ToBatches(pending) == L.AtBatch(groups)
  {
  }

  /** A batch is processed, then marked, and the next one is at hand. */
  lemma BatchSteps(cfg: L.Config, c: string, arrivals: seq<seq<L.Draft>>, start: World, journal: seq<L.Answer>, w: World, rest: seq<seq<Item>>)
    requires Traced(cfg, c, arrivals, start, journal, w, L.AtBatch(rest)) && rest != []
    ensures Traced(cfg, c, arrivals, start, journal + [L.BatchDone, L.Marked], w.(processed := w.processed + L.Nums(rest[0])),
                   if |rest| <= 1 then L.AtRead else L.AtBatch(rest[1..]))
  {
    hide Traced;
    TraceStep(cfg, c, arrivals, start, journal, w, L.AtBatch(rest), L.BatchDone);
    TraceStep(cfg, c, arrivals, start, journal + [L.BatchDone], w, L.AtMark(rest), L.Marked);
    assert journal + [L.BatchDone] + [L.Marked] == journal + [L.BatchDone, L.Marked];
  }

  lemma NextGroup(groups: seq<seq<Item>>, i: nat)
    requires i < |groups|
    ensures Flatten(groups[i..]) == groups[i] + Flatten(groups[i + 1..])
    ensures groups[i] <= Flatten(groups[i..]) && Flatten(groups[i..])[|groups[i]|..] == Flatten(groups[i + 1..])
  {
    assert groups[i..][0] == groups[i] && groups[i..][1..] == groups[i + 1..];
  }

  /** A read comes in serial order, so grouping it cuts it as it is. */
  method Group(inbox: Inbox, c: string, pending: seq<Item>) returns (groups: seq<seq<Item>>)
    requires inbox.Valid() && pending == L.Pending(inbox.items, inbox.processed, c)
    ensures SortByNum(pending) == pending && groups == Batches(pending) && Flatten(groups) == pending && forall i :: 0 <= i < |groups| ==> IsRun(groups[i])
  {
    LS.PendingIsSorted(inbox.items, inbox.processed, c);
    SortOfSorted(pending);
    groups := GroupIntoBatches(pending);
  }

  /** A quiet wait is one window, or ends before a window past the cap. */
  predicate WaitOk(cfg: L.Config, waitedMs: int) {
    cfg.silenceWindowMs <= waitedMs && (waitedMs == cfg.silenceWindowMs || waitedMs < cfg.maxQuietWaitMs + cfg.silenceWindowMs)
  }

  /** One round behind a read that found rows: wait, then run the batches of the wait's last read. */
  method RunRound(inbox: Inbox, c: string, cfg: L.Config, arrivals: seq<seq<L.Draft>>, first: seq<Item>, done: seq<seq<Item>>,
                  taken: nat, ghost processed0: set<nat>, ghost start: World, ghost before: seq<L.Answer>)
    returns (batches: seq<seq<Item>>, waitedMs: int, takenAfter: nat, ghost journal: seq<L.Answer>)
    requires inbox.Valid() && 0 < cfg.silenceWindowMs && first == L.Pending(inbox.items, inbox.processed, c) && first != []
    requires processed0 <= inbox.processed && Consumed(inbox.items, processed0, inbox.processed, c, done)
    requires Traced(cfg, c, arrivals, start, before, World(inbox.items, inbox.processed, taken), L.AtSleep(first, 0))
    modifies inbox
    ensures inbox.Valid() && old(inbox.items) <= inbox.items && processed0 <= inbox.processed
    ensures Consumed(inbox.items, processed0, inbox.processed, c, batches) && L.Pending(inbox.items, inbox.processed, c) == []
    ensures WaitOk(cfg, waitedMs)
    ensures taken < takenAfter && (taken >= |arrivals| ==> inbox.items == old(inbox.items))
    ensures Traced(cfg, c, arrivals, start, journal, World(inbox.items, inbox.processed, takenAfter), L.AtRead)
  {
    hide L.Pending, Consumed, Traced, L.ToBatches, LQ.QuietEnd, LQ.Windows, Batches, InsertRows, IsRun, LS.Numbered;
    ghost var items0 := inbox.items;
    var pending;
    pending, waitedMs, takenAfter, journal := WaitForQuiet(inbox, c, cfg, arrivals, first, taken, start, before);
    ConsumedGrows(items0, inbox.items, processed0, inbox.processed, c, done);
    batches, journal := RunBatches(inbox, c, pending, done, processed0, cfg, arrivals, start, journal, takenAfter);
  }

  /**
   One drain.  It returns when a read is empty; until then it waits out the silence
   window, groups the last read, and processes and marks batch after batch.  The
   batches it ran are, in order, exactly the conversation's rows that were
   unprocessed when it started or arrived while it ran; `waits` are its quiet waits.
   Its journal is a complete one of the lane's drain workflow, with the reads made.
   */
  method DrainConversation(inbox: Inbox, c: string, cfg: L.Config, arrivals: seq<seq<L.Draft>>)
    returns (batchesProcessed: nat, batches: seq<seq<Item>>, waits: seq<int>, ghost journal: seq<L.Answer>, ghost taken: nat)
    requires inbox.Valid() && 0 < cfg.silenceWindowMs
    modifies inbox
    ensures inbox.Valid() && old(inbox.items) <= inbox.items
    ensures L.Pending(inbox.items, inbox.processed, c) == []
    ensures Flatten(batches) == L.Pending(inbox.items, old(inbox.processed), c)
    ensures batchesProcessed == |batches| && forall i :: 0 <= i < |batches| ==> IsRun(batches[i])
    ensures forall i :: 0 <= i < |waits| ==> WaitOk(cfg, waits[i])
    ensures Traced(cfg, c, arrivals, World(old(inbox.items), old(inbox.processed), 0), journal,
                   World(inbox.items, inbox.processed, taken), L.Returned)
  {
    ConsumedNothing(inbox.items, inbox.processed, c);
    ghost var start := World(inbox.items, inbox.processed, 0);
    batchesProcessed, batches, waits, journal, taken := 0, [], [], [], 0;
    var made: nat := 0;
    assert Traced(cfg, c, arrivals, start, journal, start, L.AtRead);
    hide L.Pending, Consumed, Traced, L.ToBatches, LQ.QuietEnd, LQ.Windows, Batches, InsertRows, IsRun, WaitOk, LS.Numbered;
    while true
      invariant inbox.Valid() && old(inbox.items) <= inbox.items && old(inbox.processed) <= inbox.processed
      invariant Consumed(inbox.items, old(inbox.processed), inbox.processed, c, batches)
      invariant batchesProcessed == |batches|
      invariant forall i :: 0 <= i < |waits| ==> WaitOk(cfg, waits[i])
      invariant Traced(cfg, c, arrivals, start, journal, World(inbox.items, inbox.processed, made), L.AtRead)
      decreases Left(arrivals, made), |L.Pending(inbox.items, inbox.processed, c)|
    {
      ghost var items0, w := inbox.items, World(inbox.items, inbox.processed, made);
      var pending := Read(inbox, c, arrivals, made);
      ConsumedGrows(items0, inbox.items, old(inbox.processed), inbox.processed, c, batches);
      FirstReadStep(cfg, c, arrivals, start, journal, w, pending);
      journal, made := journal + [L.Rows(pending)], made + 1;
      taken := made;
      if pending == [] {
        ConsumedAll(inbox.items, old(inbox.processed), inbox.processed, c, batches);
        return;
      }

      var waitedMs;
      batches, waitedMs, made, journal := RunRound(inbox, c, cfg, arrivals, pending, batches, made, old(inbox.processed), start, journal);
      waits := waits + [waitedMs];
      batchesProcessed := |batches|;
    }
  }
}
