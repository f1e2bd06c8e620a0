/** After the turn: a parked turn's prompts, or the reply, leave the process. */
module ProcessBatch {
  import opened Prelude
  import opened Transcript
  import A = Approvals
  import Store = ApprovalStore
  import Debounce
  import Delivery
  import SendPath
  import Turn
  import TurnSafety
  import TurnDurable
  import TurnOutcome
  import TurnRecord

  predicate IsLastAssistant(msgs: seq<Message>, i: nat) {
    i < |msgs| && msgs[i].Assistant? && forall k :: i < k < |msgs| ==> !msgs[k].Assistant?
  }

  /** The last assistant message, wherever it stands. */
  function LastAssistant(msgs: seq<Message>): Option<Message>
    decreases |msgs|
  {
    if msgs == [] then None
    else if msgs[|msgs| - 1].Assistant? then Some(msgs[|msgs| - 1])
    else LastAssistant(msgs[..|msgs| - 1])
  }

  lemma {:induction false} LastAssistantIsLast(msgs: seq<Message>, i: nat)
    requires IsLastAssistant(msgs, i)
    ensures LastAssistant(msgs) == Some(msgs[i])
    decreases |msgs|
  {
    if i < |msgs| - 1 { LastAssistantIsLast(msgs[..|msgs| - 1], i); }
  }

  /** What there is to say: nothing without an assistant message, nor an empty one. */
  function ReplyText(stored: seq<Message>): Option<string> {
    match LastAssistant(stored)
    case Some(Assistant(content, _)) => if content == "" then None else Some(content)
    case _ => None
  }

  /**
   One batch, once its turn returned `status`.  A parked turn sends and stamps the
   prompts and says nothing else; any other delivers the stored transcript's closing
   message under the lead's class and key.  `handed` is the text given to the send.
   */
  method AfterTurn(batch: seq<Debounce.Item>, status: Turn.TurnStatus, db: Store.PendingActions, pending: seq<A.ActionId>,
                   answer: A.ActionId -> Store.SendAnswer, log: SendPath.SentLog, stored: seq<Message>, outcome: Delivery.SendOutcome)
    returns (handed: Option<string>)
    requires forall i :: 0 <= i < |pending| ==> pending[i] in db.rows
    modifies db, log
    ensures batch == [] ==> handed.None? && db.rows == old(db.rows) && log.rows == old(log.rows)
    ensures batch != [] && status.Parked? ==>
      var todo := Store.Without(pending, old(db.rows));
      handed.None? && log.rows == old(log.rows) && db.rows == Store.StampAll(old(db.rows), todo[..Store.UntilThrow(todo, answer)], answer)
    ensures batch != [] && !status.Parked? ==>
      var key := Delivery.ReplySendId(batch[0]);
      && db.rows == old(db.rows)
      && handed == (if key in old(log.rows) then None else ReplyText(stored))
      && log.rows == (if handed.Some? && (Delivery.SelectSendClass(batch[0]).AtMostOnce? || outcome.Delivered?)
                      then old(log.rows) + {key} else old(log.rows))
  {
    handed := None;
    if batch == [] { return; }
    if status.Parked? {
      var _, _, _ := Store.SendApprovalPrompts(db, pending, answer);
      return;
    }
    var text := ReplyText(stored);
    if text.None? { return; }
    var _, sends := SendPath.DeliverReply(log, Delivery.SelectSendClass(batch[0]), Delivery.ReplySendId(batch[0]), outcome);
    handed := if sends then text else None;
  }

  lemma EndedLast(msgs: seq<Message>)
    requires Ended(msgs)
    ensures LastAssistant(msgs) == Some(msgs[|msgs| - 1])
  {
    LastAssistantIsLast(msgs, |msgs| - 1);
  }

  /**
   What a turn that finished without parking gives to the send is a plain answer of
   the model in that very turn, whatever crashed and whatever was compacted.
   */
  lemma ReplyIsTheModels(stored: seq<Message>, run: TurnDurable.TurnRun)
    requires Closed(stored) && TurnDurable.FittingRun(stored, run)
    requires var s := TurnDurable.Outcome(run);
      s.memory.Some? && s.memory.value.1 == |s.journal| && s.memory.value.0.pc.Finished? && s.memory.value.0.pc.status != Turn.Parked
    ensures var s := TurnDurable.Outcome(run);
      var text := ReplyText(TurnDurable.StoredAfter(stored, s.writes));
      exists i :: 0 <= i < |s.journal| && s.journal[i].Reply? && s.journal[i].calls == []
                  && text == if s.journal[i].content == "" then None else Some(s.journal[i].content)
  {
    TurnDurable.ReplyIsTheClosingMessage(stored, run);
    EndedLast(TurnDurable.StoredAfter(stored, TurnDurable.Outcome(run).writes));
  }

  // ----- A turn the model answered is a turn that is replied to -----

  /** The last answer of the model is the last message it is recorded with. */
  lemma {:induction false} LastReply(h: seq<(Turn.Request, Turn.Answer)>, forced: bool)
    requires TurnOutcome.Answered(h, forced)
    ensures var said := TurnRecord.Replies(h);
      said != [] && said[|said| - 1] == Assistant(TurnOutcome.LastModel(h).value.1.content, [])
    decreases |h|
  {
    var last := h[|h| - 1];
    if !last.0.CallModel? { LastReply(h[..|h| - 1], forced); }
  }

  /** The last message of a role, if the transcript ends in it, is the last of that role's. */
  lemma LastOfRole(role: TurnRecord.Role, msgs: seq<Message>)
    requires msgs != [] && TurnRecord.Has(role, msgs[|msgs| - 1])
    ensures var only := TurnRecord.Only(role, msgs);
      only != [] && only[|only| - 1] == msgs[|msgs| - 1]
  {
  }

  /**
   The reply of a turn is the model's last word.  Whatever crashed and whatever was
   compacted: a finished turn whose last model call was answered without a call for a
   tool, forced or not, did not park, and what there is to say is that very answer.
   */
  lemma AnswerIsHanded(stored: seq<Message>, run: TurnDurable.TurnRun, forced: bool)
    requires Closed(stored) && TurnDurable.FittingRun(stored, run)
    requires var s := TurnDurable.Outcome(run);
      s.memory.Some? && s.memory.value.1 == |s.journal| && s.memory.value.0.pc.Finished?
    requires TurnOutcome.Answered(TurnOutcome.Record(run.cfg, run.batch, TurnDurable.Outcome(run).journal), forced)
    ensures var s := TurnDurable.Outcome(run);
      var answer := TurnOutcome.LastModel(TurnOutcome.Record(run.cfg, run.batch, s.journal)).value.1.content;
      && s.memory.value.0.pc.status == (if forced then Turn.CapHit else Turn.Completed)
      && ReplyText(TurnDurable.StoredAfter(stored, s.writes)) == if answer == "" then None else Some(answer)
  {
    var s := TurnDurable.Outcome(run);
    var h := TurnOutcome.Record(run.cfg, run.batch, s.journal);
    var t := s.memory.value.0;
    TurnDurable.TurnSurvivesCrashes(run);
    TurnDurable.ReplyIsTheClosingMessage(stored, run);
    hide *;
    TurnOutcome.TellingRun(run.cfg, run.batch, s.journal);
    TurnRecord.RecordedRun(run.cfg, run.batch, s.journal);
    AnsweredMeans(run.cfg, run.batch, t, h, forced);
    EndsInAnswer(run.batch, h, t.msgs, TurnDurable.StoredAfter(stored, s.writes), forced);
  }

  /** A finished turn that was answered did not park, and holds no prompt. */
  lemma AnsweredMeans(cfg: Turn.Config, batch: seq<Turn.Item>, t: Turn.Turn, h: seq<(Turn.Request, Turn.Answer)>, forced: bool)
    requires TurnOutcome.Telling(cfg, t, h) && TurnRecord.Recorded(cfg, batch, t, h) && t.pc.Finished? && TurnOutcome.Answered(h, forced)
    ensures t.pc.status == (if forced then Turn.CapHit else Turn.Completed) && TurnRecord.Holds(batch, h, [], t.msgs)
  {
    hide TurnRecord.Holds, TurnRecord.PromptsTold, TurnOutcome.ModelRounds, TurnOutcome.LastModel;
    assert forall i :: 0 <= i < |h| ==> !TurnOutcome.Parking(h[i]);
    NothingPrompted(cfg, h);
  }

  lemma EndsInAnswer(batch: seq<Turn.Item>, h: seq<(Turn.Request, Turn.Answer)>, msgs: seq<Message>, after: seq<Message>, forced: bool)
    requires TurnRecord.Holds(batch, h, [], msgs) && TurnOutcome.Answered(h, forced)
    requires Ended(after) && TurnDurable.Last(after) == TurnDurable.Last(msgs)
    ensures var answer := TurnOutcome.LastModel(h).value.1.content;
      ReplyText(after) == if answer == "" then None else Some(answer)
  {
    hide TurnRecord.Holds, TurnOutcome.LastModel, LastAssistant;
    EndedLast(after);
    assert Ended(msgs);
    LastSaid(batch, h, msgs, forced);
  }

  /** A record without a park promises no prompt. */
  lemma {:induction false} NothingPrompted(cfg: Turn.Config, h: seq<(Turn.Request, Turn.Answer)>)
    requires forall i :: 0 <= i < |h| ==> !TurnOutcome.Parking(h[i])
    ensures TurnRecord.PromptsTold(cfg, h) == []
    decreases |h|
  {
    if h != [] {
      NothingPrompted(cfg, h[..|h| - 1]);
      assert !TurnOutcome.Parking(h[|h| - 1]);
    }
  }

  lemma LastSaid(batch: seq<Turn.Item>, h: seq<(Turn.Request, Turn.Answer)>, msgs: seq<Message>, forced: bool)
    requires TurnRecord.Holds(batch, h, [], msgs) && Ended(msgs) && TurnOutcome.Answered(h, forced)
    ensures msgs[|msgs| - 1] == Assistant(TurnOutcome.LastModel(h).value.1.content, [])
  {
    LastReply(h, forced);
    var base := TurnRecord.LoadedFrom(h) + Turn.ModelMessages(batch);
    var added := msgs[|base|..];
    assert added != [];
    assert added[|added| - 1] == msgs[|msgs| - 1];
    LastOfRole(TurnRecord.OfAssistant, added);
    assert TurnRecord.Replies(h) + [] == TurnRecord.Replies(h);
    hide TurnRecord.Only, TurnRecord.Replies, TurnRecord.LoadedFrom, TurnOutcome.LastModel;
  }
}
