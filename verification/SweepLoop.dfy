/**
 The sweep as it is written: a loop of enqueue, await, mark.  `meanwhile[k]` are the
 rows that are cancelled or answered while the k-th notice is being enqueued.
 */
module SweepLoop {
  import opened Prelude
  import opened Sweeps

  class Store {
    var rows: map<RowId, Row>
    var inbox: seq<MessageId>

    /** The enqueue workflow, awaited: insert-if-absent on the message id. */
    method Enqueue(m: MessageId)
      modifies this`inbox
      ensures inbox == InsertIfAbsent(old(inbox), m)
    {
      if m !in inbox { inbox := inbox + [m]; }
    }

    /** The guarded flip: true only for the call that flipped the row. */
    method MarkFired(id: RowId) returns (flipped: bool)
      modifies this`rows
      ensures flipped == (id in old(rows) && old(rows[id]).status.Waiting?)
      ensures rows == if flipped then old(rows)[id := old(rows[id]).(status := Fired)] else old(rows)
    {
      flipped := id in rows && rows[id].status.Waiting?;
      if flipped { rows := rows[id := rows[id].(status := Fired)]; }
    }

    /** What others do to the rows: those of `ids` that wait are settled. */
    method SettleAll(ids: set<RowId>)
      modifies this`rows
      ensures rows == SettledRows(old(rows), ids)
    {
      rows := SettledRows(rows, ids);
    }
  }

  function SettledRows(rows: map<RowId, Row>, ids: set<RowId>): map<RowId, Row> {
    map id | id in rows :: if id in ids && rows[id].status.Waiting? then rows[id].(status := Settled) else rows[id]
  }

  /** The row settles no later than while its own notice is enqueued. */
  predicate Overtaken(meanwhile: seq<set<RowId>>, id: RowId, k: int) {
    exists j :: 0 <= j <= k && j < |meanwhile| && id in meanwhile[j]
  }

  /** Where a due row ends up when the first `done` of the sweep are through. */
  function StatusAfter(due: seq<RowId>, meanwhile: seq<set<RowId>>, done: nat, k: nat): Status
    requires k < |due|
  {
    if Overtaken(meanwhile, due[k], if k < done then k else done - 1) then Settled
    else if k < done then Fired else Waiting
  }

  function Flip(rows: map<RowId, Row>, id: RowId): map<RowId, Row> {
    if id in rows && rows[id].status.Waiting? then rows[id := rows[id].(status := Fired)] else rows
  }

  /** Enqueue, await, mark, for one due row. */
  method FireOne(db: Store, notice: MessageId, id: RowId, meanwhile: set<RowId>)
    modifies db
    ensures db.rows == Flip(SettledRows(old(db.rows), meanwhile), id)
    ensures db.inbox == InsertIfAbsent(old(db.inbox), notice)
  {
    db.Enqueue(notice);
    db.SettleAll(meanwhile);
    var _ := db.MarkFired(id);
  }

  lemma Inserted(inbox: seq<MessageId>, m: MessageId)
    ensures forall x :: x in InsertIfAbsent(inbox, m) <==> x in inbox || x == m
  {
  }

  lemma OthersOnlySettle(rows: map<RowId, Row>, ids: set<RowId>, flipped: RowId)
    ensures var after := Flip(SettledRows(rows, ids), flipped);
      after.Keys == rows.Keys
      && forall id :: id in rows && id != flipped ==> after[id] == rows[id] || after[id].status.Settled?
  {
  }

  /** What holds when the first n due rows are through. */
  ghost predicate Through(firing: RowId -> MessageId, rows: map<RowId, Row>, inbox: seq<MessageId>, due: seq<RowId>,
                          meanwhile: seq<set<RowId>>, n: nat, rows': map<RowId, Row>, inbox': seq<MessageId>) {
    && rows'.Keys == rows.Keys
    && (forall k :: 0 <= k < |due| ==> due[k] in rows' && rows'[due[k]].status == StatusAfter(due, meanwhile, n, k))
    && (forall id :: id in rows && id !in due ==> rows'[id] == rows[id] || rows'[id].status.Settled?)
    && (forall k :: 0 <= k < n && k < |due| ==> firing(due[k]) in inbox')
    && (forall m :: m in inbox' ==> m in inbox || exists k :: 0 <= k < |due| && m == firing(due[k]))
  }

  lemma StartThrough(firing: RowId -> MessageId, rows: map<RowId, Row>, inbox: seq<MessageId>, asOf: int, due: seq<RowId>,
                     meanwhile: seq<set<RowId>>)
    requires IsDue(rows, asOf, due)
    ensures Through(firing, rows, inbox, due, meanwhile, 0, rows, inbox)
  {
  }

  /** One iteration, for one due row's status. */
  lemma NextStatus(rows: map<RowId, Row>, due: seq<RowId>, meanwhile: seq<set<RowId>>, n: nat, k: nat)
    requires n < |due| == |meanwhile| && k < |due| && due[k] in rows && due[n] in rows && (k != n ==> due[k] != due[n])
    requires rows[due[k]].status == StatusAfter(due, meanwhile, n, k)
    ensures Flip(SettledRows(rows, meanwhile[n]), due[n])[due[k]].status == StatusAfter(due, meanwhile, n + 1, k)
  {
    assert Overtaken(meanwhile, due[k], n) <==> Overtaken(meanwhile, due[k], n - 1) || due[k] in meanwhile[n];
    assert k < n && Overtaken(meanwhile, due[k], k) ==> Overtaken(meanwhile, due[k], n);
  }

  lemma NextThrough(firing: RowId -> MessageId, rows: map<RowId, Row>, inbox: seq<MessageId>, asOf: int, due: seq<RowId>,
                    meanwhile: seq<set<RowId>>, n: nat, rows': map<RowId, Row>, inbox': seq<MessageId>)
    requires IsDue(rows, asOf, due) && n < |due| == |meanwhile|
    requires Through(firing, rows, inbox, due, meanwhile, n, rows', inbox')
    ensures Through(firing, rows, inbox, due, meanwhile, n + 1,
                    Flip(SettledRows(rows', meanwhile[n]), due[n]), InsertIfAbsent(inbox', firing(due[n])))
  {
    var after := Flip(SettledRows(rows', meanwhile[n]), due[n]);
    forall k | 0 <= k < |due| ensures after[due[k]].status == StatusAfter(due, meanwhile, n + 1, k) {
      NextStatus(rows', due, meanwhile, n, k);
    }
    OthersOnlySettle(rows', meanwhile[n], due[n]);
    Inserted(inbox', firing(due[n]));
    hide StatusAfter, Overtaken, Flip, SettledRows, InsertIfAbsent, IsDue;
  }

  /**
   One pass.  Every due row's notice is in the inbox afterwards, and every due row has
   fired unless it was settled before its own mark; no other row fires, and no other
   message is enqueued.
   */
  method Sweep(db: Store, firing: RowId -> MessageId, asOf: int, due: seq<RowId>, meanwhile: seq<set<RowId>>)
    returns (count: nat)
    requires IsDue(db.rows, asOf, due) && |meanwhile| == |due|
    modifies db
    ensures count == |due| && db.rows.Keys == old(db.rows).Keys
    ensures forall k :: 0 <= k < |due| ==> firing(due[k]) in db.inbox
    ensures forall k :: 0 <= k < |due| ==>
      due[k] in db.rows && db.rows[due[k]].status == if Overtaken(meanwhile, due[k], k) then Settled else Fired
    ensures forall id :: id in old(db.rows) && id !in due ==> db.rows[id] == old(db.rows)[id] || db.rows[id].status.Settled?
    ensures forall m :: m in db.inbox ==> m in old(db.inbox) || exists k :: 0 <= k < |due| && m == firing(due[k])
  {
    StartThrough(firing, db.rows, db.inbox, asOf, due, meanwhile);
    EndThrough(firing, db.rows, db.inbox, due, meanwhile);
    hide *;
    for n := 0 to |due|
      invariant Through(firing, old(db.rows), old(db.inbox), due, meanwhile, n, db.rows, db.inbox)
    {
      NextThrough(firing, old(db.rows), old(db.inbox), asOf, due, meanwhile, n, db.rows, db.inbox);
      FireOne(db, firing(due[n]), due[n], meanwhile[n]);
    }
    count := |due|;
  }

  lemma EndThrough(firing: RowId -> MessageId, rows: map<RowId, Row>, inbox: seq<MessageId>, due: seq<RowId>, meanwhile: seq<set<RowId>>)
    ensures forall rows': map<RowId, Row>, inbox': seq<MessageId> ::
      Through(firing, rows, inbox, due, meanwhile, |due|, rows', inbox') ==>
        && rows'.Keys == rows.Keys
        && (forall k :: 0 <= k < |due| ==> firing(due[k]) in inbox')
        && (forall k :: 0 <= k < |due| ==>
              due[k] in rows' && rows'[due[k]].status == if Overtaken(meanwhile, due[k], k) then Settled else Fired)
        && (forall id :: id in rows && id !in due ==> rows'[id] == rows[id] || rows'[id].status.Settled?)
        && (forall m :: m in inbox' ==> m in inbox || exists k :: 0 <= k < |due| && m == firing(due[k]))
  {
  }
}
