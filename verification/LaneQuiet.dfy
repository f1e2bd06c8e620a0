/** When a drain stops waiting, read off its journal. */
module LaneQuiet {
  import opened Prelude
  import opened Debounce
  import opened Lane
  import opened LaneSafety

  /** The answer is of the kind the workflow waits for. */
  predicate Answers(pc: Pc, a: Answer) {
    match pc
    case AtRead => a.Rows?
    case AtSleep(_, _) => a.Slept?
    case AtReread(_, _) => a.Rows?
    case AtBatch(_) => a.BatchDone?
    case AtMark(_) => a.Marked?
    case Returned => false
  }

  /** Every answer of the journal was asked for. */
  predicate Orderly(cfg: Config, journal: seq<Answer>)
    decreases |journal|
  {
    journal == [] ||
    var n := |journal| - 1;
    Orderly(cfg, journal[..n]) && Answers(Replay(cfg, journal[..n]), journal[n])
  }

  // ----- What a journal says about the wait at its end -----

  /** The last read. */
  function LastRead(journal: seq<Answer>): seq<Item>
    decreases |journal|
  {
    if journal == [] then []
    else if journal[|journal| - 1].Rows? then journal[|journal| - 1].rows
    else LastRead(journal[..|journal| - 1])
  }

  /** The windows slept since the last batch was marked or the last read that found nothing. */
  function Windows(journal: seq<Answer>): nat
    decreases |journal|
  {
    if journal == [] then 0
    else
      var n := |journal| - 1;
      match journal[n]
      case Slept => Windows(journal[..n]) + 1
      case Rows(rows) => if rows == [] then 0 else Windows(journal[..n])
      case _ => 0
  }

  /** What n windows last. */
  function Elapsed(cfg: Config, n: nat): int {
    n * cfg.silenceWindowMs
  }

  /** The workflow's own locals are what the journal says. */
  ghost predicate Tracked(cfg: Config, journal: seq<Answer>) {
    match Replay(cfg, journal)
    case AtRead => Windows(journal) == 0
    case AtSleep(pending, waited) => pending == LastRead(journal) && pending != [] && waited == Elapsed(cfg, Windows(journal))
    case AtReread(pending, waited) =>
      && pending == LastRead(journal) && pending != [] && waited == Elapsed(cfg, Windows(journal))
      && journal != [] && journal[|journal| - 1].Slept?
    case _ => true
  }

  /** The journal ends in the read that ends a wait: no more rows than the read before, or the cap is reached. */
  predicate QuietEnd(cfg: Config, journal: seq<Answer>) {
    && |journal| >= 2 && journal[|journal| - 1].Rows? && journal[|journal| - 2].Slept?
    && var before := journal[..|journal| - 1];
       |journal[|journal| - 1].rows| <= |LastRead(before)| || Elapsed(cfg, Windows(before)) >= cfg.maxQuietWaitMs
  }

  lemma BatchesOfSome(items: seq<Item>)
    ensures Batches(SortByNum(items)) == [] <==> items == []
  {
    SortSorts(items);
    assert multiset(SortByNum(items)) == multiset(items);
    if items != [] { assert items[0] in multiset(items); }
    if SortByNum(items) != [] { assert SortByNum(items)[0] in multiset(SortByNum(items)); }
  }

  lemma OneMoreWindow(cfg: Config, n: nat)
    ensures Elapsed(cfg, n + 1) == Elapsed(cfg, n) + cfg.silenceWindowMs && Elapsed(cfg, 0) == 0
  {
  }

  lemma {:induction false} OrderlyIsTracked(cfg: Config, journal: seq<Answer>)
    requires Orderly(cfg, journal)
    ensures Tracked(cfg, journal)
    decreases |journal|
  {
    if journal != [] {
      var n := |journal| - 1;
      OrderlyIsTracked(cfg, journal[..n]);
      if journal[n].Rows? { BatchesOfSome(journal[n].rows); }
      OneMoreWindow(cfg, Windows(journal[..n]));
      hide Batches, SortByNum, Elapsed;
    }
  }

  /**
   Exactly when a wait ends.  A read right after a slept window goes on waiting if and
   only if it returned more rows than the read before it and the windows slept so far
   are below the cap; otherwise its rows, all of them, are grouped, and nothing is
   asked in between.
   */
  lemma QuietEndsIff(cfg: Config, journal: seq<Answer>)
    requires Orderly(cfg, journal) && |journal| >= 2
    requires journal[|journal| - 1].Rows? && journal[|journal| - 2].Slept?
    ensures var next := journal[|journal| - 1].rows;
      match Replay(cfg, journal)
      case AtSleep(_, _) => !QuietEnd(cfg, journal)
      case AtRead => QuietEnd(cfg, journal) && next == []
      case AtBatch(rest) =>
        QuietEnd(cfg, journal) && multiset(Flatten(rest)) == multiset(next) && SortedByNum(Flatten(rest)) && rest == Batches(SortByNum(next))
      case _ => false
  {
    var n := |journal| - 1;
    AtReread(cfg, journal);
    GroupedRead(journal[n].rows);
    hide Batches, SortByNum, Elapsed, LastRead, Windows, Orderly, SortedByNum;
  }

  /** A slept window leads to a read, and the locals are what the journal says. */
  lemma AtReread(cfg: Config, journal: seq<Answer>)
    requires Orderly(cfg, journal) && |journal| >= 2
    requires journal[|journal| - 1].Rows? && journal[|journal| - 2].Slept?
    ensures var before := journal[..|journal| - 1];
      Replay(cfg, before) == Pc.AtReread(LastRead(before), Elapsed(cfg, Windows(before))) && LastRead(before) != []
  {
    var before := journal[..|journal| - 1];
    OrderlyIsTracked(cfg, before);
    assert before[|before| - 1].Slept?;
    hide Batches, SortByNum, Elapsed, LastRead, Windows;
  }

  /** What a grouped read becomes. */
  lemma GroupedRead(rows: seq<Item>)
    ensures match ToBatches(rows)
      case AtRead => rows == []
      case AtBatch(rest) => multiset(Flatten(rest)) == multiset(rows) && SortedByNum(Flatten(rest)) && rest == Batches(SortByNum(rows))
      case _ => false
  {
    BatchesOfSome(rows);
    BatchesCut(SortByNum(rows));
    SortSorts(rows);
    hide Batches, SortByNum;
  }

  /** And a wait begins with every read that finds rows after a mark or at the start: one window is always slept. */
  lemma QuietBegins(cfg: Config, journal: seq<Answer>)
    requires Orderly(cfg, journal) && journal != [] && journal[|journal| - 1].Rows?
    requires |journal| >= 2 ==> !journal[|journal| - 2].Slept?
    ensures var rows := journal[|journal| - 1].rows;
      Replay(cfg, journal) == if rows == [] then Returned else AtSleep(rows, 0)
  {
    var n := |journal| - 1;
    OrderlyIsTracked(cfg, journal[..n]);
    if n > 0 { assert journal[..n][n - 1] == journal[n - 1]; }
  }

  // ----- Every drain of every run -----

  ghost predicate AllOrderly(cfg: Config, drains: map<MessageId, Drain>) {
    forall m :: m in drains ==> Orderly(cfg, drains[m].journal)
  }

  lemma TakeOrderly(cfg: Config, d: Drain, a: Answer)
    requires d.memory == Some(Replay(cfg, d.journal)) && Orderly(cfg, d.journal) && Answers(d.memory.value, a)
    ensures Orderly(cfg, Take(cfg, d, a).journal)
  {
    assert (d.journal + [a])[..|d.journal|] == d.journal;
  }

  /** What a step appends to a journal was asked for. */
  lemma JournalStep(cfg: Config, s: State, l: Label, m: MessageId)
    requires Ok(cfg, s) && m in Next(cfg, s, l).drains
    ensures var d: Drain := Next(cfg, s, l).drains[m];
      || d.journal == []
      || (m in s.drains && d.journal == s.drains[m].journal)
      || (m in s.drains && s.drains[m].memory.Some? && exists a :: d.journal == s.drains[m].journal + [a] && Answers(s.drains[m].memory.value, a))
  {
    hide Ok, Batches, SortByNum, Contains, Pending, Replay, Advance;
    var d: Drain := Next(cfg, s, l).drains[m];
    match l
    case Sleep(k) => if k == m && m in s.drains && d.journal != s.drains[m].journal { assert d.journal == s.drains[m].journal + [Slept]; }
    case FinishTurn(k) => if k == m && m in s.drains && d.journal != s.drains[m].journal { assert d.journal == s.drains[m].journal + [BatchDone]; }
    case Mark(k) => if k == m && m in s.drains && d.journal != s.drains[m].journal { assert d.journal == s.drains[m].journal + [Marked]; }
    case Read(k) =>
      if k == m && m in s.drains && d.journal != s.drains[m].journal {
        assert d.journal == s.drains[m].journal + [Rows(Pending(s.inbox, s.processed, s.drains[m].conversation))];
      }
    case _ =>
  }

  lemma OrderlyStep(cfg: Config, s: State, l: Label)
    requires Ok(cfg, s) && AllOrderly(cfg, s.drains)
    ensures AllOrderly(cfg, Next(cfg, s, l).drains)
  {
    forall m | m in Next(cfg, s, l).drains ensures Orderly(cfg, Next(cfg, s, l).drains[m].journal) {
      JournalStep(cfg, s, l, m);
      if m in s.drains { assert DrainOk(cfg, s.inbox, s.processed, m, s.drains[m]); }
      hide Next, Ok, Advance;
      var d: Drain := Next(cfg, s, l).drains[m];
      if m in s.drains && d.journal != [] && d.journal != s.drains[m].journal {
        var a :| d.journal == s.drains[m].journal + [a] && Answers(s.drains[m].memory.value, a);
        assert d.journal[..|d.journal| - 1] == s.drains[m].journal;
      }
    }
  }
}
