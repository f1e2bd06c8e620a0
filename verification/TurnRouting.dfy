/** Whom a turn asks about what: quoted replies, classifier targets, and how fresh the model's digest is. */
module TurnRouting {
  import opened Prelude
  import opened Transcript
  import opened Turn
  import opened TurnSafety
  import D = Durable

  function StateAfter(cfg: Config, batch: seq<Item>, answers: seq<Answer>): Turn {
    D.Fold(TheProgram(cfg, batch), answers)
  }

  // ----- Quoted replies -----

  function Quotes(batch: seq<Item>): seq<Quote>
    decreases |batch|
  {
    if batch == [] then []
    else
      var p := batch[|batch| - 1].payload;
      Quotes(batch[..|batch| - 1])
      + if p.text.Some? && p.quotedMessageId.Some? && p.quotedMessageId.value != "" then [Quote(p.text.value, p.quotedMessageId.value)] else []
  }

  /** The quotes a request list resolves, in order. */
  function Resolutions(requests: seq<Request>): seq<Quote>
    decreases |requests|
  {
    if requests == [] then []
    else Resolutions(requests[..|requests| - 1])
         + (if requests[|requests| - 1].ResolveApproval? then [requests[|requests| - 1].quote] else [])
  }

  /** The quotes a state has behind it. */
  function Behind(cfg: Config, batch: seq<Item>, pc: Pc): seq<Quote> {
    match pc
    case Loading => []
    case Resolving(i) => if i <= |batch| then Quotes(batch[..i]) else []
    case _ => if cfg.resolves then Quotes(batch) else []
  }

  lemma RelateLeavesQuotes(cfg: Config, batch: seq<Item>, t: Turn, i: nat)
    ensures var pc := RelateFrom(cfg, batch, t, i).pc;
      !pc.Loading? && !pc.Resolving? && !pc.Threw?
    decreases |batch| - i
  {
    if i < |batch| { RelateLeavesQuotes(cfg, batch, t, i + 1); }
  }

  lemma {:induction false} ResolveSkipsUnquoted(cfg: Config, batch: seq<Item>, t: Turn, i: nat)
    requires i <= |batch|
    ensures var pc := ResolveFrom(cfg, batch, t, i).pc;
      && !pc.Loading? && !pc.Threw?
      && (pc.Resolving? ==> cfg.resolves && i <= pc.i < |batch| && QuotedReply(batch[pc.i]).Some? && Quotes(batch[..pc.i]) == Quotes(batch[..i]))
      && (!pc.Resolving? ==> (if cfg.resolves then Quotes(batch) == Quotes(batch[..i]) else true))
    decreases |batch| - i
  {
    if !cfg.resolves || i >= |batch| {
      assert i == |batch| ==> batch[..i] == batch;
      RelateLeavesQuotes(cfg, batch, t.(entries := []), 0);
    } else if QuotedReply(batch[i]).None? {
      assert batch[..i + 1][..i] == batch[..i];
      ResolveSkipsUnquoted(cfg, batch, t, i + 1);
    }
  }

  lemma LaterPcs(cfg: Config, batch: seq<Item>, t: Turn, a: Answer)
    requires !t.pc.Loading? && !t.pc.Resolving?
    ensures !Next(cfg, batch, t, a).pc.Loading? && !Next(cfg, batch, t, a).pc.Resolving?
    ensures Ask(cfg, batch, t).Some? ==> !Ask(cfg, batch, t).value.ResolveApproval?
  {
    if !Early(t.pc) {
      LateGoesOn(cfg, batch, t, a);
      hide Next, Ask;
    } else {
      match t.pc
      case Digesting => if a.Digest? { RelateLeavesQuotes(cfg, batch, t.(entries := a.entries), 0); }
      case Classifying(i, _) => RelateLeavesQuotes(cfg, batch, t, i + 1);
      case AtRefine(i, _, _) => RelateLeavesQuotes(cfg, batch, t, i + 1);
      case _ =>
    }
  }

  /** Past the classifier a turn does not come back to resolving or relating, and settles nothing. */
  lemma LateGoesOn(cfg: Config, batch: seq<Item>, t: Turn, a: Answer)
    requires !t.pc.Loading? && !Early(t.pc)
    ensures !Next(cfg, batch, t, a).pc.Loading? && !Early(Next(cfg, batch, t, a).pc) && Next(cfg, batch, t, a).entries == t.entries
    ensures Ask(cfg, batch, t).Some? ==>
      var r := Ask(cfg, batch, t).value;
      !r.ResolveApproval? && !r.ResolveDecision? && !r.RefineAction? && !r.LoadDigest?
  {
  }

  /** The pc of a turn that is resolving stands at a quoted item. */
  predicate AtQuote(cfg: Config, batch: seq<Item>, t: Turn) {
    t.pc.Resolving? ==> cfg.resolves && t.pc.i < |batch| && QuotedReply(batch[t.pc.i]).Some?
  }

  lemma QuotesStep(cfg: Config, batch: seq<Item>, t: Turn, a: Answer, requests: seq<Request>)
    requires AtQuote(cfg, batch, t) && (t.pc.Threw? || Resolutions(requests) == Behind(cfg, batch, t.pc))
    ensures var u := Next(cfg, batch, t, a);
      var r := Ask(cfg, batch, t);
      && AtQuote(cfg, batch, u)
      && (u.pc.Threw? || Resolutions(requests + if r.Some? then [r.value] else []) == Behind(cfg, batch, u.pc))
  {
    var r := Ask(cfg, batch, t);
    assert requests + [] == requests;
    if r.Some? { assert (requests + [r.value])[..|requests|] == requests; }
    if t.pc.Loading? {
      if a.Loaded? {
        assert batch[..0] == [];
        ResolveSkipsUnquoted(cfg, batch, t.(msgs := a.transcript + ModelMessages(batch), priorCount := |a.transcript|), 0);
      }
    } else if t.pc.Resolving? {
      var i := t.pc.i;
      assert batch[..i + 1][..i] == batch[..i];
      if a.Resolved? {
        ResolveSkipsUnquoted(cfg, batch, Say(t.(quoted := t.quoted[i := a.outcome]), Updates(a.outcome, batch[i].senderId)), i + 1);
      }
    } else {
      LaterPcs(cfg, batch, t, a);
      hide Next, Ask;
    }
  }

  /**
   Every quoted reply of the batch is resolved exactly once, in batch order, before
   anything else is asked; nothing else is ever resolved as a quote.
   */
  lemma {:induction false} QuotesResolvedInOrder(cfg: Config, batch: seq<Item>, answers: seq<Answer>)
    ensures var t := StateAfter(cfg, batch, answers);
      && AtQuote(cfg, batch, t)
      && (t.pc.Threw? || Resolutions(D.Requests(TheProgram(cfg, batch), answers)) == Behind(cfg, batch, t.pc))
    decreases |answers|
  {
    if answers != [] {
      var n := |answers| - 1;
      QuotesResolvedInOrder(cfg, batch, answers[..n]);
      QuotesStep(cfg, batch, StateAfter(cfg, batch, answers[..n]), answers[n], D.Requests(TheProgram(cfg, batch), answers[..n]));
    }
  }

  // ----- Classifier targets -----

  /** The item may be about the target: its quote bound it unclearly, or it is unbound and nothing else pends. */
  predicate MayMean(batch: seq<Item>, t: Turn, i: nat, target: Entry) {
    && i < |batch| && MessageText(batch[i]).Some? && target in t.entries
    && ((i in t.quoted && t.quoted[i] == Unclear(target.actionId))
        || (t.entries == [target] && (i !in t.quoted || t.quoted[i].Unbound?)))
  }

  predicate OnTarget(batch: seq<Item>, t: Turn) {
    match t.pc
    case Classifying(i, target) => MayMean(batch, t, i, target)
    case Deciding(i, target, _) => MayMean(batch, t, i, target)
    case AtRefine(i, target, _) => MayMean(batch, t, i, target)
    case _ => true
  }

  lemma {:induction false} FindFinds(entries: seq<Entry>, id: string)
    ensures Find(entries, id).Some? ==> Find(entries, id).value in entries && Find(entries, id).value.actionId == id
    decreases |entries|
  {
    if entries != [] { FindFinds(entries[1..], id); }
  }

  lemma {:induction false} RelateOnTarget(cfg: Config, batch: seq<Item>, t: Turn, i: nat)
    ensures OnTarget(batch, RelateFrom(cfg, batch, t, i))
    decreases |batch| - i
  {
    if i < |batch| {
      if i in t.quoted && t.quoted[i].Unclear? { FindFinds(t.entries, t.quoted[i].actionId); }
      RelateOnTarget(cfg, batch, t, i + 1);
    }
  }

  lemma {:induction false} ResolveOnTarget(cfg: Config, batch: seq<Item>, t: Turn, i: nat)
    ensures OnTarget(batch, ResolveFrom(cfg, batch, t, i))
    decreases |batch| - i
  {
    if i < |batch| { ResolveOnTarget(cfg, batch, t, i + 1); }
    RelateOnTarget(cfg, batch, t.(entries := []), 0);
  }

  lemma TargetStep(cfg: Config, batch: seq<Item>, t: Turn, a: Answer)
    requires OnTarget(batch, t)
    ensures OnTarget(batch, Next(cfg, batch, t, a))
  {
    if !t.pc.Loading? && !Early(t.pc) {
      LateGoesOn(cfg, batch, t, a);
      hide Next;
    } else {
      match t.pc
      case Loading =>
        if a.Loaded? {
          ResolveOnTarget(cfg, batch, t.(msgs := a.transcript + ModelMessages(batch), priorCount := |a.transcript|), 0);
        }
      case Resolving(i) =>
        if a.Resolved? && i < |batch| {
          ResolveOnTarget(cfg, batch, Say(t.(quoted := t.quoted[i := a.outcome]), Updates(a.outcome, batch[i].senderId)), i + 1);
        }
      case Digesting => if a.Digest? { RelateOnTarget(cfg, batch, t.(entries := a.entries), 0); }
      case Classifying(i, _) => RelateOnTarget(cfg, batch, t, i + 1);
      case AtRefine(i, _, _) => RelateOnTarget(cfg, batch, t, i + 1);
      case _ =>
    }
  }

  /** Only a verdict on the same item and target leads to settling or refining it. */
  lemma ActsOnVerdict(cfg: Config, batch: seq<Item>, t: Turn, a: Answer)
    requires Acts(Next(cfg, batch, t, a).pc)
    ensures t.pc.Classifying? && a.Judged?
    ensures match Next(cfg, batch, t, a).pc
      case Deciding(i, target, approve) => i == t.pc.i && target == t.pc.target && a.verdict == if approve then Approve else Deny
      case AtRefine(i, target, args) => i == t.pc.i && target == t.pc.target && a.verdict == Refine(args)
      case _ => false
  {
    if !t.pc.Loading? && !Early(t.pc) {
      LateGoesOn(cfg, batch, t, a);
    } else if !t.pc.Classifying? {
      EarlyDoesNotAct(cfg, batch, t, a);
    } else if a.Judged? {
      RelateAsks(cfg, batch, t, t.pc.i + 1);
    }
  }

  lemma EarlyDoesNotAct(cfg: Config, batch: seq<Item>, t: Turn, a: Answer)
    requires (t.pc.Loading? || Early(t.pc)) && !t.pc.Classifying?
    ensures !Acts(Next(cfg, batch, t, a).pc)
  {
    match t.pc
    case Loading =>
      if a.Loaded? {
        ResolveAsks(cfg, batch, t.(msgs := a.transcript + ModelMessages(batch), priorCount := |a.transcript|), 0);
      }
    case Resolving(i) =>
      if a.Resolved? && i < |batch| {
        ResolveAsks(cfg, batch, Say(t.(quoted := t.quoted[i := a.outcome]), Updates(a.outcome, batch[i].senderId)), i + 1);
      }
    case Digesting => if a.Digest? { RelateAsks(cfg, batch, t.(entries := a.entries), 0); }
    case AtRefine(i, _, _) => RelateAsks(cfg, batch, t, i + 1);
    case _ =>
  }

  predicate Acts(pc: Pc) {
    pc.Deciding? || pc.AtRefine?
  }

  lemma {:induction false} RelateAsks(cfg: Config, batch: seq<Item>, t: Turn, i: nat)
    ensures !Acts(RelateFrom(cfg, batch, t, i).pc)
    decreases |batch| - i
  {
    if i < |batch| { RelateAsks(cfg, batch, t, i + 1); }
  }

  lemma {:induction false} ResolveAsks(cfg: Config, batch: seq<Item>, t: Turn, i: nat)
    ensures !Acts(ResolveFrom(cfg, batch, t, i).pc)
    decreases |batch| - i
  {
    if i < |batch| { ResolveAsks(cfg, batch, t, i + 1); }
    RelateAsks(cfg, batch, t.(entries := []), 0);
  }

  /**
   Target selection never guesses: whenever the classifier is asked, or its verdict
   acted on, it is about the action the item's quote bound, or the item is unbound and
   that action is the only one pending; and the item is a person's utterance.
   */
  lemma {:induction false} TargetNeverGuesses(cfg: Config, batch: seq<Item>, answers: seq<Answer>)
    ensures OnTarget(batch, StateAfter(cfg, batch, answers))
    decreases |answers|
  {
    if answers != [] {
      var n := |answers| - 1;
      TargetNeverGuesses(cfg, batch, answers[..n]);
      TargetStep(cfg, batch, StateAfter(cfg, batch, answers[..n]), answers[n]);
    }
  }

  /**
   And what it is asked is that item's own text under its sender's name, with that
   action's tool and its arguments, or its summary where there are none.
   */
  lemma ClassifierIsTold(cfg: Config, batch: seq<Item>, answers: seq<Answer>)
    ensures var t := StateAfter(cfg, batch, answers);
      match Ask(cfg, batch, t)
      case Some(Classify(sender, message, tool, action, _)) =>
        exists i: nat, target: Entry :: MayMean(batch, t, i, target)
          && sender == batch[i].senderId && batch[i].payload.text == Some(message) && tool == target.toolName
          && (if target.argsJson.Some? then action == target.argsJson.value else action == target.summary)
      case _ => true
  {
    TargetNeverGuesses(cfg, batch, answers);
    var t := StateAfter(cfg, batch, answers);
    if t.pc.Classifying? { assert MayMean(batch, t, t.pc.i, t.pc.target); }
    hide MayMean;
  }

  // ----- The digest the model sees -----

  /** The step may have changed which actions pend. */
  predicate Changes(r: Option<Request>, a: Answer) {
    r.Some? && match r.value
      case ResolveApproval(_) => true
      case ResolveDecision(_, _) => true
      case RefineAction(_, _) => a.Refining? && (a.refinement.Refined? || a.refinement.RefineAlreadyResolved?)
      case RunTool(_) => a.Result? && a.parked
      case _ => false
  }

  /** Something changed since the digest was last read. */
  predicate Stale(cfg: Config, batch: seq<Item>, answers: seq<Answer>)
    decreases |answers|
  {
    answers != [] &&
    var n := |answers| - 1;
    var r := Ask(cfg, batch, StateAfter(cfg, batch, answers[..n]));
    r != Some(LoadDigest) && (Changes(r, answers[n]) || Stale(cfg, batch, answers[..n]))
  }

  function LastDigest(answers: seq<Answer>): seq<Entry>
    decreases |answers|
  {
    if answers == [] then []
    else if answers[|answers| - 1].Digest? then answers[|answers| - 1].entries
    else LastDigest(answers[..|answers| - 1])
  }

  /** The pcs at which a change may just have happened, and those after the model's part. */
  predicate MayBeStale(pc: Pc) {
    pc.Loading? || pc.Resolving? || pc.Digesting? || pc.Redigesting? || pc.Reprompting? || PastModel(pc) || (pc.Tooling? && pc.parked)
  }

  lemma {:induction false} RelateKeepsEntries(cfg: Config, batch: seq<Item>, t: Turn, i: nat)
    ensures RelateFrom(cfg, batch, t, i).entries == t.entries
    decreases |batch| - i
  {
    if i < |batch| { RelateKeepsEntries(cfg, batch, t, i + 1); }
  }

  /** With a digest wired, resolving ends in reading it. */
  lemma {:induction false} ResolveEndsInDigest(cfg: Config, batch: seq<Item>, t: Turn, i: nat)
    requires cfg.digests
    ensures ResolveFrom(cfg, batch, t, i).pc.Resolving? || ResolveFrom(cfg, batch, t, i).pc.Digesting?
    decreases |batch| - i
  {
    if i < |batch| { ResolveEndsInDigest(cfg, batch, t, i + 1); }
  }

  /** One step leaves the digest as fresh and as current as it was, or at a pc that reads it again or needs it no more. */
  lemma FreshStep(cfg: Config, batch: seq<Item>, t: Turn, a: Answer)
    requires cfg.digests
    ensures Freshness(cfg, batch, t, a, Next(cfg, batch, t, a))
  {
    if !t.pc.Loading? && !Early(t.pc) {
      FreshLate(cfg, batch, t, a);
      hide Next, Freshness;
    } else {
      match t.pc
      case Loading =>
        if a.Loaded? {
          ResolveEndsInDigest(cfg, batch, t.(msgs := a.transcript + ModelMessages(batch), priorCount := |a.transcript|), 0);
        }
      case Resolving(i) =>
        if a.Resolved? && i < |batch| {
          ResolveEndsInDigest(cfg, batch, Say(t.(quoted := t.quoted[i := a.outcome]), Updates(a.outcome, batch[i].senderId)), i + 1);
        }
      case Digesting => if a.Digest? { RelateKeepsEntries(cfg, batch, t.(entries := a.entries), 0); }
      case Classifying(i, _) => RelateKeepsEntries(cfg, batch, t, i + 1);
      case AtRefine(i, _, _) => RelateKeepsEntries(cfg, batch, t, i + 1);
      case _ =>
    }
  }

  predicate Freshness(cfg: Config, batch: seq<Item>, t: Turn, a: Answer, u: Turn) {
    || MayBeStale(u.pc)
    || (a.Digest? && Ask(cfg, batch, t) == Some(LoadDigest) && u.entries == a.entries)
    || (!MayBeStale(t.pc) && u.entries == t.entries && !Changes(Ask(cfg, batch, t), a) && !a.Digest?)
  }

  lemma FreshLate(cfg: Config, batch: seq<Item>, t: Turn, a: Answer)
    requires !t.pc.Loading? && !Early(t.pc)
    ensures Freshness(cfg, batch, t, a, Next(cfg, batch, t, a))
  {
  }

  /**
   The digest a model call carries is the last one read, and nothing that can change
   which actions pend happened after it was read: quotes and decisions come before it,
   and a park ends the turn.
   */
  lemma {:induction false} DigestIsFresh(cfg: Config, batch: seq<Item>, answers: seq<Answer>)
    requires cfg.digests
    ensures var t := StateAfter(cfg, batch, answers);
      !MayBeStale(t.pc) ==> !Stale(cfg, batch, answers) && t.entries == LastDigest(answers)
    decreases |answers|
  {
    if answers != [] {
      var n := |answers| - 1;
      DigestIsFresh(cfg, batch, answers[..n]);
      FreshStep(cfg, batch, StateAfter(cfg, batch, answers[..n]), answers[n]);
      hide Next, Ask, Changes;
    }
  }

  lemma ModelSeesFreshDigest(cfg: Config, batch: seq<Item>, answers: seq<Answer>)
    requires cfg.digests
    ensures match Ask(cfg, batch, StateAfter(cfg, batch, answers))
      case Some(CallModel(_, _, digest, _)) =>
        && digest == (if LastDigest(answers) == [] then None else Some(cfg.digest(LastDigest(answers))))
        && !Stale(cfg, batch, answers)
      case _ => true
  {
    DigestIsFresh(cfg, batch, answers);
  }
}
