/** Every batch a run starts or completes is a maximal run of the read that ended some drain's wait. */
module LaneBatches {
  import opened Prelude
  import opened Debounce
  import opened Lane
  import opened LaneSafety
  import opened LaneQuiet

  /** The k-th answer is a read that ended a wait and whose batches include this one. */
  ghost predicate GroupedAt(cfg: Config, journal: seq<Answer>, k: nat, batch: seq<Item>) {
    k < |journal| && QuietEnd(cfg, journal[..k + 1]) && journal[k].Rows? && batch in Batches(SortByNum(journal[k].rows))
  }

  ghost predicate FromRead(cfg: Config, journal: seq<Answer>, batch: seq<Item>) {
    exists k :: GroupedAt(cfg, journal, k, batch)
  }

  lemma FromReadGrows(cfg: Config, journal: seq<Answer>, longer: seq<Answer>, batch: seq<Item>)
    requires FromRead(cfg, journal, batch) && journal <= longer
    ensures FromRead(cfg, longer, batch)
  {
    var k: nat :| GroupedAt(cfg, journal, k, batch);
    assert longer[k] == journal[k] && longer[..k + 1] == journal[..k + 1];
    assert GroupedAt(cfg, longer, k, batch);
  }

  /** The batches a drain still has before it. */
  function Rest(pc: Pc): seq<seq<Item>> {
    match pc
    case AtBatch(rest) => rest
    case AtMark(rest) => rest
    case _ => []
  }

  lemma AdvanceRest(cfg: Config, pc: Pc, a: Answer)
    ensures forall b :: b in Rest(Advance(cfg, pc, a)) ==> b in Rest(pc) || (a.Rows? && pc.AtReread? && b in Batches(SortByNum(a.rows)))
  {
  }

  lemma {:induction false} RestIsFromRead(cfg: Config, journal: seq<Answer>)
    requires Orderly(cfg, journal)
    ensures forall b :: b in Rest(Replay(cfg, journal)) ==> FromRead(cfg, journal, b)
    decreases |journal|
  {
    if journal != [] {
      var n := |journal| - 1;
      RestIsFromRead(cfg, journal[..n]);
      AdvanceRest(cfg, Replay(cfg, journal[..n]), journal[n]);
      forall b | b in Rest(Replay(cfg, journal)) ensures FromRead(cfg, journal, b) {
        if b in Rest(Replay(cfg, journal[..n])) {
          FromReadGrows(cfg, journal[..n], journal, b);
        } else {
          NewBatchIsGrouped(cfg, journal, b);
        }
      }
    }
  }

  lemma NewBatchIsGrouped(cfg: Config, journal: seq<Answer>, b: seq<Item>)
    requires Orderly(cfg, journal) && journal != []
    requires var n := |journal| - 1;
      b in Rest(Replay(cfg, journal)) && b !in Rest(Replay(cfg, journal[..n])) && Replay(cfg, journal[..n]).AtReread?
      && journal[n].Rows? && b in Batches(SortByNum(journal[n].rows))
    ensures FromRead(cfg, journal, b)
  {
    var n := |journal| - 1;
    OrderlyIsTracked(cfg, journal[..n]);
    assert journal[..n][n - 1] == journal[n - 1];
    QuietEndsIff(cfg, journal);
    hide Batches, SortByNum, QuietEnd, Replay;
    assert journal[..n + 1] == journal;
    assert GroupedAt(cfg, journal, n, b);
  }

  ghost predicate HasRead(cfg: Config, d: Drain, c: ConversationId, batch: seq<Item>) {
    d.conversation == c && FromRead(cfg, d.journal, batch)
  }

  /** A drain of the conversation read it. */
  ghost predicate Read(cfg: Config, drains: map<MessageId, Drain>, c: ConversationId, batch: seq<Item>) {
    exists m: MessageId :: m in drains && HasRead(cfg, drains[m], c, batch)
  }

  ghost predicate Asked(cfg: Config, s: State, lead: MessageId, batch: seq<Item>) {
    batch != [] && batch[0].messageId == lead && exists c :: Read(cfg, s.drains, c, batch)
  }

  ghost predicate Grouped(cfg: Config, s: State) {
    && AllOrderly(cfg, s.drains)
    && (forall lead: MessageId, b: seq<Item> :: (lead, b) in s.asked ==> Asked(cfg, s, lead, b))
    && (forall c, i :: 0 <= i < |Completed(s, c)| ==> Read(cfg, s.drains, c, Completed(s, c)[i]))
  }

  ghost predicate JournalsGrow(drains: map<MessageId, Drain>, after: map<MessageId, Drain>) {
    forall m :: m in drains ==>
      m in after && after[m].conversation == drains[m].conversation && drains[m].journal <= after[m].journal
  }

  lemma ReadStays(cfg: Config, drains: map<MessageId, Drain>, after: map<MessageId, Drain>, c: ConversationId, batch: seq<Item>)
    requires Read(cfg, drains, c, batch) && JournalsGrow(drains, after)
    ensures Read(cfg, after, c, batch)
  {
    var m: MessageId :| m in drains && HasRead(cfg, drains[m], c, batch);
    FromReadGrows(cfg, drains[m].journal, after[m].journal, batch);
  }

  lemma StepGrowsJournals(cfg: Config, s: State, l: Label)
    ensures JournalsGrow(s.drains, Next(cfg, s, l).drains)
  {
    hide Batches, SortByNum, Contains, Pending, Replay;
  }

  /** What a step adds to the history is the head of a live drain's batches. */
  lemma HistoryStep(cfg: Config, s: State, l: Label)
    ensures var t := Next(cfg, s, l);
      && (t.asked == s.asked || (l.StartTurn? && AtTurn(s, l.m) && t.asked == s.asked + {(Current(s, l.m)[0].messageId, Current(s, l.m))}))
      && (t.completed == s.completed
          || (l.Mark? && Live(s, l.m) && Rest(s.drains[l.m].memory.value) != []
              && var d: Drain := s.drains[l.m];
                 t.completed == s.completed[d.conversation := Completed(s, d.conversation) + [Rest(d.memory.value)[0]]]))
  {
    hide Batches, SortByNum, Contains, Pending, Replay;
  }

  lemma HeadIsRead(cfg: Config, s: State, m: MessageId)
    requires Live(s, m) && DrainOk(cfg, s.inbox, s.processed, m, s.drains[m]) && Orderly(cfg, s.drains[m].journal) && Rest(s.drains[m].memory.value) != []
    ensures Read(cfg, s.drains, s.drains[m].conversation, Rest(s.drains[m].memory.value)[0])
  {
    var d: Drain := s.drains[m];
    RestIsFromRead(cfg, d.journal);
    assert Rest(d.memory.value)[0] in Rest(Replay(cfg, d.journal));
    assert HasRead(cfg, d, d.conversation, Rest(d.memory.value)[0]);
  }

  lemma AskedStays(cfg: Config, s: State, t: State, lead: MessageId, batch: seq<Item>)
    requires Asked(cfg, s, lead, batch) && JournalsGrow(s.drains, t.drains)
    ensures Asked(cfg, t, lead, batch)
  {
    var c :| Read(cfg, s.drains, c, batch);
    ReadStays(cfg, s.drains, t.drains, c, batch);
  }

  /** A live drain's next batch was read. */
  lemma HeadStep(cfg: Config, s: State, m: MessageId, t: State)
    requires Ok(cfg, s) && AllOrderly(cfg, s.drains) && Live(s, m) && Rest(s.drains[m].memory.value) != [] && JournalsGrow(s.drains, t.drains)
    ensures Read(cfg, t.drains, s.drains[m].conversation, Rest(s.drains[m].memory.value)[0])
  {
    assert DrainOk(cfg, s.inbox, s.processed, m, s.drains[m]);
    HeadIsRead(cfg, s, m);
    ReadStays(cfg, s.drains, t.drains, s.drains[m].conversation, Rest(s.drains[m].memory.value)[0]);
  }

  lemma AskedGrouped(cfg: Config, s: State, l: Label, lead: MessageId, b: seq<Item>)
    requires Ok(cfg, s) && Grouped(cfg, s) && (lead, b) in Next(cfg, s, l).asked
    ensures Asked(cfg, Next(cfg, s, l), lead, b)
  {
    var t := Next(cfg, s, l);
    StepGrowsJournals(cfg, s, l);
    HistoryStep(cfg, s, l);
    hide Next, Ok, Read;
    if (lead, b) in s.asked {
      AskedStays(cfg, s, t, lead, b);
    } else {
      HeadStep(cfg, s, l.m, t);
    }
  }

  lemma CompletedGrouped(cfg: Config, s: State, l: Label, c: ConversationId, i: nat)
    requires Ok(cfg, s) && Grouped(cfg, s) && i < |Completed(Next(cfg, s, l), c)|
    ensures Read(cfg, Next(cfg, s, l).drains, c, Completed(Next(cfg, s, l), c)[i])
  {
    var t := Next(cfg, s, l);
    StepGrowsJournals(cfg, s, l);
    HistoryStep(cfg, s, l);
    hide Next, Ok, Read;
    if i < |Completed(s, c)| {
      ReadStays(cfg, s.drains, t.drains, c, Completed(s, c)[i]);
    } else {
      HeadStep(cfg, s, l.m, t);
    }
  }

  lemma GroupedStep(cfg: Config, s: State, l: Label)
    requires Ok(cfg, s) && Grouped(cfg, s)
    ensures Grouped(cfg, Next(cfg, s, l))
  {
    var t := Next(cfg, s, l);
    OrderlyStep(cfg, s, l);
    forall lead: MessageId, b: seq<Item> | (lead, b) in t.asked ensures Asked(cfg, t, lead, b) {
      AskedGrouped(cfg, s, l, lead, b);
    }
    forall c, i | 0 <= i < |Completed(t, c)| ensures Read(cfg, t.drains, c, Completed(t, c)[i]) {
      CompletedGrouped(cfg, s, l, c, i);
    }
    hide Next, Ok, Read, Asked;
  }

  /** A drain of the conversation ended a wait with rows among which the batch is a maximal run. */
  ghost predicate MaximalInARead(cfg: Config, drains: map<MessageId, Drain>, c: ConversationId, batch: seq<Item>) {
    exists m: MessageId, k: nat :: m in drains && ReadWhole(cfg, drains[m], k, c, batch)
  }

  ghost predicate ReadWhole(cfg: Config, d: Drain, k: nat, c: ConversationId, batch: seq<Item>) {
    && d.conversation == c && k < |d.journal| && d.journal[k].Rows? && QuietEnd(cfg, d.journal[..k + 1])
    && MaximalIn(batch, SortByNum(d.journal[k].rows))
  }

  lemma ReadIsMaximal(cfg: Config, drains: map<MessageId, Drain>, c: ConversationId, batch: seq<Item>)
    requires Read(cfg, drains, c, batch)
    ensures MaximalInARead(cfg, drains, c, batch)
  {
    var m: MessageId :| m in drains && HasRead(cfg, drains[m], c, batch);
    var d: Drain := drains[m];
    var k: nat :| GroupedAt(cfg, d.journal, k, batch);
    BatchIsMaximal(SortByNum(d.journal[k].rows), batch);
    assert ReadWhole(cfg, d, k, c, batch);
  }
}
