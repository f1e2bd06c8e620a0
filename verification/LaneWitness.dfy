/** What a turn that ends in ERROR breaks: its id is started again with a longer batch. */
module LaneWitness {
  import opened Prelude
  import opened Debounce
  import opened Lane

  lemma {:induction false} RunSnoc(cfg: Config, s: State, labels: seq<Label>, l: Label)
    ensures Run(cfg, s, labels + [l]) == Next(cfg, Run(cfg, s, labels), l)
    decreases |labels|
  {
    if labels == [] {
      assert ([] + [l])[1..] == [];
    } else {
      assert (labels + [l])[1..] == labels[1..] + [l];
      RunSnoc(cfg, Next(cfg, s, labels[0]), labels[1..], l);
    }
  }

  lemma Then(cfg: Config, s: State, labels: seq<Label>, l: Label, t: State) returns (labels': seq<Label>)
    requires Run(cfg, Initial, labels) == s && Next(cfg, s, l) == t
    ensures Run(cfg, Initial, labels') == t
  {
    labels' := labels + [l];
    RunSnoc(cfg, Initial, labels, l);
  }

  /** Enqueues one message, row and drain, with a fresh workflow id and message id. */
  lemma EnqueueOne(cfg: Config, s: State, labels: seq<Label>, w: WorkflowId, d: Draft) returns (labels': seq<Label>, t: State)
    requires Run(cfg, Initial, labels) == s && w !in s.enqueues && d.conversation == cfg.home(d.messageId)
    requires !Contains(s.inbox, d.messageId) && d.messageId !in s.drains
    ensures Run(cfg, Initial, labels') == t
    ensures t.inbox == s.inbox + [Item(|s.inbox|, d.conversation, d.kind, d.sender, d.messageId)]
    ensures t.processed == s.processed && t.asked == s.asked && t.enqueues.Keys == s.enqueues.Keys + {w}
    ensures t.drains == s.drains[d.messageId := Drain(d.conversation, Queued, [], None)]
  {
    var s1 := DoStartEnqueue(cfg, s, w, d);
    var s2 := DoInsertRow(s1, w);
    t := DoStartDrain(s2, w);
    labels' := Then(cfg, s, labels, StartEnqueue(w, d), s1);
    labels' := Then(cfg, s1, labels', InsertRow(w), s2);
    labels' := Then(cfg, s2, labels', StartDrain(w), t);
  }

  function With(s: State, m: MessageId, d: Drain): State {
    s.(drains := s.drains[m := d])
  }

  lemma BeginThen(cfg: Config, s: State, labels: seq<Label>, m: MessageId) returns (labels': seq<Label>, d: Drain)
    requires Run(cfg, Initial, labels) == s && m in s.drains && s.drains[m].status.Queued?
    requires forall k :: k in s.drains ==> !s.drains[k].status.Running?
    ensures d == s.drains[m].(status := Running, memory := Some(AtRead)) && Run(cfg, Initial, labels') == With(s, m, d)
  {
    d := s.drains[m].(status := Running, memory := Some(AtRead));
    labels' := Then(cfg, s, labels, BeginDrain(m), With(s, m, d));
  }

  lemma ReadThen(cfg: Config, s: State, labels: seq<Label>, m: MessageId, d: Drain, p: seq<Item>) returns (labels': seq<Label>)
    requires Run(cfg, Initial, labels) == With(s, m, d) && d.status.Running? && d.memory.Some?
    requires d.memory.value.AtRead? || d.memory.value.AtReread?
    requires p == Pending(s.inbox, s.processed, d.conversation)
    ensures Run(cfg, Initial, labels') == With(s, m, Take(cfg, d, Rows(p)))
  {
    assert With(s, m, d).drains[m := Take(cfg, d, Rows(p))] == s.drains[m := Take(cfg, d, Rows(p))];
    labels' := Then(cfg, With(s, m, d), labels, Read(m), With(s, m, Take(cfg, d, Rows(p))));
  }

  lemma SleepThen(cfg: Config, s: State, labels: seq<Label>, m: MessageId, d: Drain) returns (labels': seq<Label>)
    requires Run(cfg, Initial, labels) == With(s, m, d) && d.status.Running? && d.memory.Some? && d.memory.value.AtSleep?
    ensures Run(cfg, Initial, labels') == With(s, m, Take(cfg, d, Slept))
  {
    assert With(s, m, d).drains[m := Take(cfg, d, Slept)] == s.drains[m := Take(cfg, d, Slept)];
    labels' := Then(cfg, With(s, m, d), labels, Sleep(m), With(s, m, Take(cfg, d, Slept)));
  }

  /** The drain that has read p, slept one window, and is about to read again. */
  function Waited(cfg: Config, d: Drain, p: seq<Item>): Drain {
    d.(status := Running, journal := d.journal + [Rows(p)] + [Slept], memory := Some(AtReread(p, cfg.silenceWindowMs)))
  }

  lemma DrainWaits(cfg: Config, s: State, labels: seq<Label>, m: MessageId, p: seq<Item>) returns (labels': seq<Label>)
    requires Run(cfg, Initial, labels) == s && m in s.drains && s.drains[m].status.Queued?
    requires forall k :: k in s.drains ==> !s.drains[k].status.Running?
    requires p == Pending(s.inbox, s.processed, s.drains[m].conversation) && p != []
    ensures Run(cfg, Initial, labels') == With(s, m, Waited(cfg, s.drains[m], p))
  {
    var d: Drain;
    labels', d := BeginThen(cfg, s, labels, m);
    labels' := ReadThen(cfg, s, labels', m, d, p);
    labels' := SleepThen(cfg, s, labels', m, Take(cfg, d, Rows(p)));
  }

  /** A queued drain reads the same rows twice, with one window between, and forms its only batch. */
  lemma DrainToBatch(cfg: Config, s: State, labels: seq<Label>, m: MessageId, p: seq<Item>) returns (labels': seq<Label>, d: Drain)
    requires Run(cfg, Initial, labels) == s && m in s.drains && s.drains[m].status.Queued?
    requires forall k :: k in s.drains ==> !s.drains[k].status.Running?
    requires p == Pending(s.inbox, s.processed, s.drains[m].conversation) && p != [] && ToBatches(p) == AtBatch([p])
    ensures Run(cfg, Initial, labels') == With(s, m, d)
    ensures d.conversation == s.drains[m].conversation && d.status.Running? && d.memory == Some(AtBatch([p]))
  {
    labels' := DrainWaits(cfg, s, labels, m, p);
    d := Waited(cfg, s.drains[m], p);
    labels' := ReadThen(cfg, s, labels', m, d, p);
    d := Take(cfg, d, Rows(p));
  }

  lemma StartThen(cfg: Config, s: State, labels: seq<Label>, m: MessageId, d: Drain, p: seq<Item>) returns (labels': seq<Label>, t: State)
    requires Run(cfg, Initial, labels) == With(s, m, d) && p != []
    requires d.status.Running? && d.memory == Some(AtBatch([p]))
    ensures Run(cfg, Initial, labels') == t && AtTurn(t, m) && Current(t, m) == p
    ensures t == With(s, m, d).(asked := s.asked + {(p[0].messageId, p)})
  {
    t := With(s, m, d).(asked := s.asked + {(p[0].messageId, p)});
    labels' := Then(cfg, With(s, m, d), labels, StartTurn(m), t);
  }

  /** And starts that batch's turn. */
  lemma DrainToTurn(cfg: Config, s: State, labels: seq<Label>, m: MessageId, p: seq<Item>) returns (labels': seq<Label>, t: State)
    requires Run(cfg, Initial, labels) == s && m in s.drains && s.drains[m].status.Queued?
    requires forall k :: k in s.drains ==> !s.drains[k].status.Running?
    requires p == Pending(s.inbox, s.processed, s.drains[m].conversation) && p != [] && ToBatches(p) == AtBatch([p])
    ensures Run(cfg, Initial, labels') == t && AtTurn(t, m) && Current(t, m) == p
    ensures t.inbox == s.inbox && t.processed == s.processed && t.enqueues == s.enqueues
    ensures t.asked == s.asked + {(p[0].messageId, p)} && t.drains == s.drains[m := t.drains[m]]
  {
    var d: Drain;
    labels', d := DrainToBatch(cfg, s, labels, m, p);
    labels', t := StartThen(cfg, s, labels', m, d, p);
  }

  lemma OneRunIsOneBatch(p: seq<Item>)
    requires SortedByNum(p) && IsRun(p)
    ensures ToBatches(p) == AtBatch([p])
  {
    SortOfSorted(p);
    assert Flatten([p]) == p + Flatten<Item>([]);
    BatchesCut(p);
    CutIsUnique(p, Batches(p), [p]);
  }

  /** The rows the two messages become. */
  function RowOf(i: nat, c: ConversationId, sender: string, m: MessageId): Item {
    Item(i, c, Human, sender, m)
  }

  lemma FirstTurnStarts(cfg: Config, c: ConversationId, sender: string, m: MessageId) returns (labels: seq<Label>, t: State)
    requires cfg.home(m) == c
    ensures var p := [RowOf(0, c, sender, m)];
      && Run(cfg, Initial, labels) == t && AtTurn(t, m) && Current(t, m) == p
      && t.inbox == p && t.processed == {} && t.enqueues.Keys == {"first"} && t.drains.Keys == {m} && t.asked == {(m, p)}
  {
    var p := [RowOf(0, c, sender, m)];
    var s: State;
    labels, s := EnqueueOne(cfg, Initial, [], "first", Draft(c, Human, sender, m));
    OneRunIsOneBatch(p);
    assert Pending(p, {}, c) == p by { assert p[..0] == []; }
    labels, t := DrainToTurn(cfg, s, labels, m, p);
  }

  /** The state after the first message's turn failed: its row is unprocessed, its drain is in ERROR. */
  lemma FirstTurnFails(cfg: Config, c: ConversationId, sender: string, m: MessageId) returns (labels: seq<Label>, t: State)
    requires cfg.home(m) == c
    ensures Run(cfg, Initial, labels) == t
    ensures t.inbox == [RowOf(0, c, sender, m)] && t.processed == {} && t.enqueues.Keys == {"first"}
    ensures t.drains.Keys == {m} && t.drains[m].status.Failed?
    ensures (m, [RowOf(0, c, sender, m)]) in t.asked
  {
    var s: State;
    labels, s := FirstTurnStarts(cfg, c, sender, m);
    t := DoFailTurn(s, m);
    labels := Then(cfg, s, labels, FailTurn(m), t);
  }

  /** Then the second message of the same sender is enqueued. */
  lemma SecondArrives(cfg: Config, c: ConversationId, sender: string, m: MessageId, n: MessageId) returns (labels: seq<Label>, t: State)
    requires m != n && cfg.home(m) == c && cfg.home(n) == c
    ensures Run(cfg, Initial, labels) == t
    ensures t.inbox == [RowOf(0, c, sender, m), RowOf(1, c, sender, n)] && t.processed == {}
    ensures n in t.drains && t.drains[n] == Drain(c, Queued, [], None)
    ensures forall k :: k in t.drains ==> !t.drains[k].status.Running?
    ensures (m, [RowOf(0, c, sender, m)]) in t.asked
  {
    var s: State;
    labels, s := FirstTurnFails(cfg, c, sender, m);
    labels, t := EnqueueOne(cfg, s, labels, "second", Draft(c, Human, sender, n));
  }

  /**
   A message's turn fails, so its drain ends in ERROR with the row unprocessed; the
   next message's drain reads both rows and starts the same turn id with both.
   */
  lemma ErrorRegroups(cfg: Config, c: ConversationId, sender: string, m: MessageId, n: MessageId)
    returns (labels: seq<Label>, short: seq<Item>, long: seq<Item>)
    requires m != n && cfg.home(m) == c && cfg.home(n) == c
    ensures var s := Run(cfg, Initial, labels);
      short != long && (m, short) in s.asked && (m, long) in s.asked
  {
    short, long := [RowOf(0, c, sender, m)], [RowOf(0, c, sender, m), RowOf(1, c, sender, n)];
    var s: State;
    labels, s := SecondArrives(cfg, c, sender, m, n);
    OneRunIsOneBatch(long);
    assert Pending(long, {}, c) == long by {
      assert long[..1] == short && short[..0] == [];
      assert Pending(short, {}, c) == short;
    }
    labels, s := DrainToTurn(cfg, s, labels, n, long);
  }
}
