/** What a turn's transcript holds, read off its steps and their answers alone: nothing is dropped, reordered or made up. */
module TurnRecord {
  import opened Prelude
  import opened Transcript
  import opened Turn
  import opened TurnSafety
  import opened TurnDurable
  import opened TurnOutcome
  import D = Durable

  datatype Role = OfUser | OfAssistant | OfTool

  predicate Has(role: Role, m: Message) {
    match role
    case OfUser => m.User?
    case OfAssistant => m.Assistant?
    case OfTool => m.Tool?
  }

  /** The messages of one role, in order. */
  function Only(role: Role, msgs: seq<Message>): seq<Message>
    decreases |msgs|
  {
    if msgs == [] then []
    else Only(role, msgs[..|msgs| - 1]) + if Has(role, msgs[|msgs| - 1]) then [msgs[|msgs| - 1]] else []
  }

  lemma {:induction false} OnlyConcat(role: Role, a: seq<Message>, b: seq<Message>)
    ensures Only(role, a + b) == Only(role, a) + Only(role, b)
    decreases |b|
  {
    if b == [] {
      assert a + b == a;
    } else {
      assert (a + b)[..|a + b| - 1] == a + b[..|b| - 1];
      OnlyConcat(role, a, b[..|b| - 1]);
    }
  }

  // ----- Reading a record -----

  /** The transcript that was loaded. */
  function LoadedFrom(h: seq<(Request, Answer)>): seq<Message> {
    if h != [] && h[0].0.LoadContext? && h[0].1.Loaded? then h[0].1.transcript else []
  }

  /** Every tool result. */
  function ResultOf(x: (Request, Answer)): seq<Message> {
    if x.0.RunTool? && x.1.Result? then [Tool(x.1.toolUseId, x.1.content)] else []
  }

  /** Every answer of the model, with the calls it asks for. */
  function ReplyOf(x: (Request, Answer)): seq<Message> {
    if x.0.CallModel? && x.1.Reply? then [Assistant(x.1.content, x.1.calls)] else []
  }

  /** One closing prompt for every call that parked an action, and for a refinement that was applied. */
  function PromptOf(cfg: Config, x: (Request, Answer)): seq<Message> {
    if x.0.RunTool? && x.1.Result? && x.1.parked && x.1.actionId.Some? then [Assistant(PromptText(cfg.proposal(x.0.call)), [])]
    else if x.0.RefineAction? && x.1.Refining? && x.1.refinement.Refined? then [Assistant(PromptText(x.1.refinement.summary), [])]
    else []
  }

  /** The senders of the batch's quoted replies, in order. */
  function Quoters(batch: seq<Item>): seq<string>
    decreases |batch|
  {
    if batch == [] then []
    else
      var last := batch[|batch| - 1];
      Quoters(batch[..|batch| - 1]) + if QuotedReply(last).Some? then [last.senderId] else []
  }

  function QuotesAsked(h: seq<(Request, Answer)>): nat
    decreases |h|
  {
    if h == [] then 0 else QuotesAsked(h[..|h| - 1]) + if h[|h| - 1].0.ResolveApproval? then 1 else 0
  }

  /** Whose message was classified last. */
  function LastClassified(h: seq<(Request, Answer)>): string
    decreases |h|
  {
    if h == [] then "" else if h[|h| - 1].0.Classify? then h[|h| - 1].0.senderId else LastClassified(h[..|h| - 1])
  }

  /** What settled, told under the name of whoever said so. */
  function UpdateOf(batch: seq<Item>, before: seq<(Request, Answer)>, x: (Request, Answer)): seq<Message> {
    match x
    case (ResolveApproval(_), Resolved(outcome)) =>
      if QuotesAsked(before) < |Quoters(batch)| then Updates(outcome, Quoters(batch)[QuotesAsked(before)]) else []
    case (ResolveDecision(_, _), Resolved(outcome)) => Updates(outcome, LastClassified(before))
    case (RefineAction(_, _), Refining(RefineAlreadyResolved(id, status))) => Updates(AlreadyResolved(id, status), LastClassified(before))
    case _ => []
  }

  function Results(h: seq<(Request, Answer)>): seq<Message>
    decreases |h|
  {
    if h == [] then [] else Results(h[..|h| - 1]) + ResultOf(h[|h| - 1])
  }

  function Replies(h: seq<(Request, Answer)>): seq<Message>
    decreases |h|
  {
    if h == [] then [] else Replies(h[..|h| - 1]) + ReplyOf(h[|h| - 1])
  }

  function PromptsTold(cfg: Config, h: seq<(Request, Answer)>): seq<Message>
    decreases |h|
  {
    if h == [] then [] else PromptsTold(cfg, h[..|h| - 1]) + PromptOf(cfg, h[|h| - 1])
  }

  function UpdatesTold(batch: seq<Item>, h: seq<(Request, Answer)>): seq<Message>
    decreases |h|
  {
    if h == [] then [] else UpdatesTold(batch, h[..|h| - 1]) + UpdateOf(batch, h[..|h| - 1], h[|h| - 1])
  }

  lemma Snoc(cfg: Config, batch: seq<Item>, h: seq<(Request, Answer)>, x: (Request, Answer))
    ensures Results(h + [x]) == Results(h) + ResultOf(x) && Replies(h + [x]) == Replies(h) + ReplyOf(x)
    ensures PromptsTold(cfg, h + [x]) == PromptsTold(cfg, h) + PromptOf(cfg, x)
    ensures UpdatesTold(batch, h + [x]) == UpdatesTold(batch, h) + UpdateOf(batch, h, x)
    ensures QuotesAsked(h + [x]) == QuotesAsked(h) + if x.0.ResolveApproval? then 1 else 0
    ensures LastClassified(h + [x]) == if x.0.Classify? then x.0.senderId else LastClassified(h)
    ensures h != [] ==> LoadedFrom(h + [x]) == LoadedFrom(h)
  {
    var all := h + [x];
    assert all[..|h|] == h && all[|h|] == x;
    assert h != [] ==> all[0] == h[0];
  }

  // ----- The invariant -----

  /** What the turn added, role by role, is what the record says. */
  ghost predicate Holds(batch: seq<Item>, h: seq<(Request, Answer)>, prompts: seq<Message>, msgs: seq<Message>) {
    var base := LoadedFrom(h) + ModelMessages(batch);
    && base <= msgs
    && var added := msgs[|base|..];
       && Only(OfTool, added) == Results(h)
       && Only(OfAssistant, added) == Replies(h) + prompts
       && Only(OfUser, added) == UpdatesTold(batch, h)
  }

  /** The prompts still to be said: what the turn remembers of them. */
  function Waiting(cfg: Config, t: Turn): seq<Message> {
    if t.pc.Tooling? then Prompts(cfg, t.pc.prompts)
    else if t.reprompt.Some? then [Assistant(PromptText(t.reprompt.value), [])]
    else []
  }

  /** Its prompts are said when a turn has a status, and wait until then. */
  ghost predicate PromptsKept(cfg: Config, t: Turn, h: seq<(Request, Answer)>) {
    && (StatusOf(t.pc).None? ==> PromptsTold(cfg, h) == Waiting(cfg, t))
    && (t.reprompt.Some? ==> t.pc.Redigesting? || StatusOf(t.pc).Some?)
    && (t.pc.Tooling? && !t.pc.parked ==> t.pc.prompts == [])
  }

  function Said(cfg: Config, t: Turn, h: seq<(Request, Answer)>): seq<Message> {
    if StatusOf(t.pc).Some? then PromptsTold(cfg, h) else []
  }

  /** Whose turn it is to be answered. */
  predicate Speaker(batch: seq<Item>, t: Turn, h: seq<(Request, Answer)>) {
    match t.pc
    case Loading => QuotesAsked(h) == 0
    case Resolving(i) => i < |batch| && QuotedReply(batch[i]).Some? && QuotesAsked(h) == |Quoters(batch[..i])|
    case Classifying(i, _) => i < |batch| && MessageText(batch[i]).Some?
    case Deciding(i, _, _) => i < |batch| && LastClassified(h) == batch[i].senderId
    case AtRefine(i, _, _) => i < |batch| && LastClassified(h) == batch[i].senderId
    case _ => true
  }

  ghost predicate Recorded(cfg: Config, batch: seq<Item>, t: Turn, h: seq<(Request, Answer)>) {
    t.pc.Threw? ||
    (&& Speaker(batch, t, h)
     && (if t.pc.Loading? then h == [] && t == Start
         else h != [] && PromptsKept(cfg, t, h) && Holds(batch, h, Said(cfg, t, h), t.msgs)))
  }

  // ----- One step of it -----

  lemma OnlyOne(role: Role, m: Message)
    ensures Only(role, [m]) == if Has(role, m) then [m] else []
  {
    assert [m][..0] == [] && Only(role, []) == [];
    assert Only(role, [m]) == Only(role, [m][..|[m]| - 1]) + if Has(role, [m][|[m]| - 1]) then [[m][|[m]| - 1]] else [];
  }

  lemma UpdatesAreUsers(outcome: Approval, who: string)
    ensures Only(OfUser, Updates(outcome, who)) == Updates(outcome, who)
    ensures Only(OfTool, Updates(outcome, who)) == [] && Only(OfAssistant, Updates(outcome, who)) == []
  {
    match OutcomeLine(outcome, who)
    case None =>
    case Some(line) =>
      OnlyOne(OfUser, User("system:hitl", line));
      OnlyOne(OfTool, User("system:hitl", line));
      OnlyOne(OfAssistant, User("system:hitl", line));
  }

  lemma UpdateIsUser(batch: seq<Item>, h: seq<(Request, Answer)>, x: (Request, Answer))
    ensures var more := UpdateOf(batch, h, x);
      Only(OfUser, more) == more && Only(OfTool, more) == [] && Only(OfAssistant, more) == []
  {
    hide Updates;
    match x
    case (ResolveApproval(_), Resolved(outcome)) =>
      if QuotesAsked(h) < |Quoters(batch)| { UpdatesAreUsers(outcome, Quoters(batch)[QuotesAsked(h)]); }
    case (ResolveDecision(_, _), Resolved(outcome)) => UpdatesAreUsers(outcome, LastClassified(h));
    case (RefineAction(_, _), Refining(RefineAlreadyResolved(id, status))) => UpdatesAreUsers(AlreadyResolved(id, status), LastClassified(h));
    case _ =>
  }

  lemma {:induction false} PromptsAreReplies(msgs: seq<Message>)
    requires forall i :: 0 <= i < |msgs| ==> msgs[i].Assistant?
    ensures Only(OfAssistant, msgs) == msgs && Only(OfUser, msgs) == [] && Only(OfTool, msgs) == []
    decreases |msgs|
  {
    if msgs != [] {
      PromptsAreReplies(msgs[..|msgs| - 1]);
      assert msgs == msgs[..|msgs| - 1] + [msgs[|msgs| - 1]];
    }
  }

  /** The messages a step adds, and what it adds to the record. */
  lemma HoldsStep(cfg: Config, batch: seq<Item>, h: seq<(Request, Answer)>, x: (Request, Answer), prompts: seq<Message>,
                  prompts': seq<Message>, msgs: seq<Message>, more: seq<Message>)
    requires h != [] && Holds(batch, h, prompts, msgs)
    requires Only(OfTool, more) == ResultOf(x) && Only(OfUser, more) == UpdateOf(batch, h, x)
    requires prompts + Only(OfAssistant, more) == ReplyOf(x) + prompts'
    ensures Holds(batch, h + [x], prompts', msgs + more)
  {
    hide Only, Results, Replies, UpdatesTold, ModelMessages, ResultOf, ReplyOf, UpdateOf, LoadedFrom;
    Snoc(cfg, batch, h, x);
    var base := LoadedFrom(h) + ModelMessages(batch);
    var added := msgs[|base|..];
    assert (msgs + more)[|base|..] == added + more;
    OnlyConcat(OfTool, added, more);
    OnlyConcat(OfUser, added, more);
    OnlyConcat(OfAssistant, added, more);
    calc {
      Replies(h) + prompts + Only(OfAssistant, more);
      Replies(h) + (prompts + Only(OfAssistant, more));
      Replies(h) + (ReplyOf(x) + prompts');
      Replies(h) + ReplyOf(x) + prompts';
    }
  }

  // ----- Before the model -----

  /** The turn goes on towards the model with its messages as they were, or closes with its re-prompt. */
  predicate PassedOn(batch: seq<Item>, t: Turn, u: Turn) {
    && u.reprompt == t.reprompt
    && (if u.pc.Reprompting? then t.reprompt.Some? && u.msgs == t.msgs + [Assistant(PromptText(t.reprompt.value), [])]
        else u.msgs == t.msgs && StatusOf(u.pc).None? && !u.pc.Loading? && !u.pc.Threw? && !u.pc.Tooling? && !u.pc.Deciding? && !u.pc.AtRefine?
             && (t.reprompt.Some? ==> u.pc.Redigesting?))
    && (u.pc.Classifying? ==> u.pc.i < |batch| && MessageText(batch[u.pc.i]).Some?)
  }

  lemma {:induction false} RelatePassesOn(cfg: Config, batch: seq<Item>, t: Turn, i: nat)
    requires t.reprompt.None?
    ensures PassedOn(batch, t, RelateFrom(cfg, batch, t, i)) && !RelateFrom(cfg, batch, t, i).pc.Resolving?
    decreases |batch| - i
  {
    if i < |batch| { RelatePassesOn(cfg, batch, t, i + 1); }
  }

  lemma {:induction false} ResolvePassesOn(cfg: Config, batch: seq<Item>, t: Turn, i: nat)
    requires t.reprompt.None? && i <= |batch|
    ensures PassedOn(batch, t, ResolveFrom(cfg, batch, t, i))
    ensures var pc := ResolveFrom(cfg, batch, t, i).pc;
      pc.Resolving? ==> pc.i < |batch| && QuotedReply(batch[pc.i]).Some? && Quoters(batch[..pc.i]) == Quoters(batch[..i])
    decreases |batch| - i
  {
    if !cfg.resolves || i >= |batch| {
      RelatePassesOn(cfg, batch, t.(entries := []), 0);
    } else if QuotedReply(batch[i]).None? {
      assert batch[..i + 1][..i] == batch[..i];
      ResolvePassesOn(cfg, batch, t, i + 1);
    }
  }

  /** A step before the model's part, from where it leaves the messages. */
  lemma RecordedPassed(cfg: Config, batch: seq<Item>, t: Turn, h: seq<(Request, Answer)>, x: (Request, Answer), t1: Turn, u: Turn)
    requires Recorded(cfg, batch, t, h) && Early(t.pc)
    requires ResultOf(x) == [] && ReplyOf(x) == [] && t1.msgs == t.msgs + UpdateOf(batch, h, x)
    requires t1.reprompt == t.reprompt || (t1.reprompt.Some? && t.reprompt.None?)
    requires PromptOf(cfg, x) == if t1.reprompt == t.reprompt then [] else [Assistant(PromptText(t1.reprompt.value), [])]
    requires PassedOn(batch, t1, u) && Speaker(batch, u, h + [x])
    ensures Recorded(cfg, batch, u, h + [x])
  {
    Snoc(cfg, batch, h, x);
    UpdateIsUser(batch, h, x);
    var update := UpdateOf(batch, h, x);
    hide UpdateOf, ResultOf, ReplyOf, PromptOf, Only, Results, Replies, PromptsTold, UpdatesTold, Updates, Speaker;
    var closing := if u.pc.Reprompting? then [Assistant(PromptText(u.reprompt.value), [])] else [];
    PromptsAreReplies(closing);
    OnlyConcat(OfTool, update, closing);
    OnlyConcat(OfUser, update, closing);
    OnlyConcat(OfAssistant, update, closing);
    assert u.msgs == t.msgs + (update + closing);
    HoldsStep(cfg, batch, h, x, [], closing, t.msgs, update + closing);
    hide Holds;
  }

  lemma QuotersGrow(batch: seq<Item>, i: nat)
    requires i < |batch| && QuotedReply(batch[i]).Some?
    ensures |Quoters(batch[..i + 1])| == |Quoters(batch[..i])| + 1 <= |Quoters(batch)|
    ensures Quoters(batch)[|Quoters(batch[..i])|] == batch[i].senderId
  {
    assert batch[..i + 1][..i] == batch[..i];
    QuotersPrefix(batch, i + 1);
  }

  lemma {:induction false} QuotersPrefix(batch: seq<Item>, n: nat)
    requires n <= |batch|
    ensures Quoters(batch[..n]) <= Quoters(batch)
    decreases |batch|
  {
    if n == |batch| {
      assert batch[..n] == batch;
    } else {
      QuotersPrefix(batch[..|batch| - 1], n);
      assert batch[..|batch| - 1][..n] == batch[..n];
    }
  }

  lemma RecordedLoading(cfg: Config, batch: seq<Item>, t: Turn, a: Answer)
    requires t == Start
    ensures Recorded(cfg, batch, Next(cfg, batch, t, a), [(LoadContext, a)])
  {
    if a.Loaded? {
      var t1 := t.(msgs := a.transcript + ModelMessages(batch), priorCount := |a.transcript|);
      assert batch[..0] == [];
      ResolvePassesOn(cfg, batch, t1, 0);
      Snoc(cfg, batch, [], (LoadContext, a));
      assert [] + [(LoadContext, a)] == [(LoadContext, a)];
      assert t1.msgs[|t1.msgs|..] == [];
      hide ResolveFrom, ModelMessages;
    }
  }

  lemma RecordedQuote(cfg: Config, batch: seq<Item>, t: Turn, h: seq<(Request, Answer)>, a: Answer)
    requires Recorded(cfg, batch, t, h) && t.pc.Resolving?
    ensures Recorded(cfg, batch, Next(cfg, batch, t, a), Longer(cfg, batch, t, h, a))
  {
    var i := t.pc.i;
    assert t.reprompt.None? && Speaker(batch, t, h) by { hide Holds, PromptsTold; }
    var x := (ResolveApproval(QuotedReply(batch[i]).value), a);
    if a.Resolved? {
      QuoteResolved(cfg, batch, t, h, x);
      var t1 := Say(t.(quoted := t.quoted[i := a.outcome]), Updates(a.outcome, batch[i].senderId));
      assert Longer(cfg, batch, t, h, a) == h + [x] && Next(cfg, batch, t, a) == ResolveFrom(cfg, batch, t1, i + 1);
      hide *;
      RecordedPassed(cfg, batch, t, h, x, t1, ResolveFrom(cfg, batch, t1, i + 1));
    }
  }

  /** The item's quote is resolved under its sender, and the next quoted item is next. */
  lemma QuoteResolved(cfg: Config, batch: seq<Item>, t: Turn, h: seq<(Request, Answer)>, x: (Request, Answer))
    requires t.pc.Resolving? && t.reprompt.None? && Speaker(batch, t, h) && x.0.ResolveApproval? && x.1.Resolved?
    ensures ResultOf(x) == [] && ReplyOf(x) == [] && PromptOf(cfg, x) == []
    ensures UpdateOf(batch, h, x) == Updates(x.1.outcome, batch[t.pc.i].senderId)
    ensures var t1 := Say(t.(quoted := t.quoted[t.pc.i := x.1.outcome]), Updates(x.1.outcome, batch[t.pc.i].senderId));
      var u := ResolveFrom(cfg, batch, t1, t.pc.i + 1);
      PassedOn(batch, t1, u) && Speaker(batch, u, h + [x]) && t1.reprompt == t.reprompt && Early(t.pc)
      && t1.msgs == t.msgs + Updates(x.1.outcome, batch[t.pc.i].senderId)
  {
    QuotersGrow(batch, t.pc.i);
    Snoc(cfg, batch, h, x);
    var t1 := Say(t.(quoted := t.quoted[t.pc.i := x.1.outcome]), Updates(x.1.outcome, batch[t.pc.i].senderId));
    ResolvePassesOn(cfg, batch, t1, t.pc.i + 1);
    hide Quoters, QuotesAsked, ResolveFrom, Updates, QuotedReply, LastClassified;
  }

  lemma RecordedDigest(cfg: Config, batch: seq<Item>, t: Turn, h: seq<(Request, Answer)>, a: Answer)
    requires Recorded(cfg, batch, t, h) && (t.pc.Digesting? || t.pc.Redigesting?)
    ensures Recorded(cfg, batch, Next(cfg, batch, t, a), h + [(LoadDigest, a)])
  {
    if a.Digest? {
      DigestRead(cfg, batch, t, h, a);
      NoReprompt(cfg, batch, t, h);
      hide *;
      RecordedPassed(cfg, batch, t, h, (LoadDigest, a), t.(entries := a.entries), Next(cfg, batch, t, a));
    } else {
      hide Recorded;
      assert Next(cfg, batch, t, a).pc.Threw?;
      ThrewIsRecorded(cfg, batch, Next(cfg, batch, t, a), h + [(LoadDigest, a)]);
    }
  }

  lemma ThrewIsRecorded(cfg: Config, batch: seq<Item>, u: Turn, h: seq<(Request, Answer)>)
    requires u.pc.Threw?
    ensures Recorded(cfg, batch, u, h)
  {
  }

  /** Only a turn that reads the digest again, or closes, has a re-prompt. */
  lemma NoReprompt(cfg: Config, batch: seq<Item>, t: Turn, h: seq<(Request, Answer)>)
    requires Recorded(cfg, batch, t, h) && Early(t.pc)
    ensures t.reprompt.Some? ==> t.pc.Redigesting?
  {
    hide Holds, PromptsTold;
  }

  /** Behind a digest the turn passes on, and nothing was said. */
  lemma DigestRead(cfg: Config, batch: seq<Item>, t: Turn, h: seq<(Request, Answer)>, a: Answer)
    requires (t.pc.Digesting? || t.pc.Redigesting?) && a.Digest?
    ensures var x := (LoadDigest, a);
      ResultOf(x) == [] && ReplyOf(x) == [] && PromptOf(cfg, x) == [] && UpdateOf(batch, h, x) == []
    ensures var t1, u := t.(entries := a.entries), Next(cfg, batch, t, a);
      && t1.msgs == t.msgs + [] && t1.reprompt == t.reprompt && Early(t.pc)
      && ((t.reprompt.Some? ==> t.pc.Redigesting?) ==> PassedOn(batch, t1, u) && Speaker(batch, u, h + [(LoadDigest, a)]))
  {
    if t.pc.Digesting? && t.reprompt.None? { RelatePassesOn(cfg, batch, t.(entries := a.entries), 0); }
    hide RelateFrom, LastClassified, QuotesAsked, Quoters, QuotedReply;
  }

  /** A message that was judged, or a judgment that changed nothing: the next question is asked, or the model. */
  lemma RecordedUnrelated(cfg: Config, batch: seq<Item>, t: Turn, h: seq<(Request, Answer)>, x: (Request, Answer), i: nat)
    requires Recorded(cfg, batch, t, h) && Early(t.pc) && t.reprompt.None?
    requires ResultOf(x) == [] && ReplyOf(x) == [] && UpdateOf(batch, h, x) == [] && PromptOf(cfg, x) == []
    ensures Recorded(cfg, batch, RelateFrom(cfg, batch, t, i), h + [x])
  {
    RelatePassesOn(cfg, batch, t, i);
    hide Recorded, RelateFrom, UpdateOf, PromptOf;
    assert t.msgs == t.msgs + [];
    var u := RelateFrom(cfg, batch, t, i);
    assert Speaker(batch, u, h + [x]);
    RecordedPassed(cfg, batch, t, h, x, t, u);
  }

  lemma RecordedVerdict(cfg: Config, batch: seq<Item>, t: Turn, h: seq<(Request, Answer)>, a: Answer)
    requires Recorded(cfg, batch, t, h) && t.pc.Classifying?
    ensures Recorded(cfg, batch, Next(cfg, batch, t, a), Longer(cfg, batch, t, h, a))
  {
    hide Holds, Only, Results, Replies, PromptsTold, UpdatesTold, Updates, Prompts, ModelMessages, ResolveFrom, RelateFrom;
    hide Utterances, DigestText, Compact, LoadedFrom, QuotesAsked, LastClassified, Quoters, QuotedReply, Recent, Prior;
    var x := (Ask(cfg, batch, t).value, a);
    if a.Judged? {
      if a.verdict.Unrelated? {
        RecordedUnrelated(cfg, batch, t, h, x, t.pc.i + 1);
      } else {
        Snoc(cfg, batch, h, x);
        assert x.0.senderId == batch[t.pc.i].senderId;
        NothingAdded();
        assert t.msgs + [] == t.msgs;
        HoldsStep(cfg, batch, h, x, [], [], t.msgs, []);
      }
    }
  }

  lemma NothingAdded()
    ensures forall role :: Only(role, []) == []
  {
  }

  lemma RecordedDecision(cfg: Config, batch: seq<Item>, t: Turn, h: seq<(Request, Answer)>, a: Answer)
    requires Recorded(cfg, batch, t, h) && t.pc.Deciding?
    ensures Recorded(cfg, batch, Next(cfg, batch, t, a), Longer(cfg, batch, t, h, a))
  {
    hide Holds, Only, Results, Replies, PromptsTold, UpdatesTold, Updates, Prompts, ModelMessages, ResolveFrom, RelateFrom;
    hide Utterances, DigestText, Compact, LoadedFrom, QuotesAsked, LastClassified, Quoters, QuotedReply, Recent, Prior;
    var x := (Ask(cfg, batch, t).value, a);
    if a.Resolved? {
      var t1 := Say(t, Updates(a.outcome, batch[t.pc.i].senderId));
      var u := Next(cfg, batch, t, a);
      assert PassedOn(batch, t1, u) && !u.pc.Resolving? && !u.pc.Classifying?;
      assert UpdateOf(batch, h, x) == Updates(a.outcome, batch[t.pc.i].senderId);
      hide Next, PassedOn, UpdateOf;
      RecordedPassed(cfg, batch, t, h, x, t1, u);
    }
  }

  lemma RecordedRefinement(cfg: Config, batch: seq<Item>, t: Turn, h: seq<(Request, Answer)>, a: Answer)
    requires Recorded(cfg, batch, t, h) && t.pc.AtRefine?
    ensures Recorded(cfg, batch, Next(cfg, batch, t, a), Longer(cfg, batch, t, h, a))
  {
    hide Holds, Only, Results, Replies, PromptsTold, UpdatesTold, Updates, Prompts, ModelMessages, ResolveFrom, RelateFrom;
    hide Utterances, DigestText, Compact, LoadedFrom, QuotesAsked, LastClassified, Quoters, QuotedReply, Recent, Prior;
    var x := (Ask(cfg, batch, t).value, a);
    if a.Refining? {
      var u := Next(cfg, batch, t, a);
      match a.refinement
      case Refined(summary) =>
        var t1 := t.(reprompt := Some(summary));
        assert PassedOn(batch, t1, u) && !u.pc.Resolving? && !u.pc.Classifying?;
        hide Next, PassedOn;
        assert t1.msgs == t.msgs + [];
        RecordedPassed(cfg, batch, t, h, x, t1, u);
      case RefineAlreadyResolved(id, status) =>
        var t1 := Say(t, Updates(AlreadyResolved(id, status), batch[t.pc.i].senderId));
        assert PassedOn(batch, t1, u) && !u.pc.Resolving? && !u.pc.Classifying?;
        hide Next, PassedOn;
        RecordedPassed(cfg, batch, t, h, x, t1, u);
      case _ => RecordedUnrelated(cfg, batch, t, h, x, t.pc.i + 1);
    }
  }

  // ----- The model's part and after -----

  lemma RecordedRoute(cfg: Config, batch: seq<Item>, t: Turn, h: seq<(Request, Answer)>, a: Answer)
    requires Recorded(cfg, batch, t, h) && (t.pc.Routing? || t.pc.LoggingRoute?)
    ensures Recorded(cfg, batch, Next(cfg, batch, t, a), Longer(cfg, batch, t, h, a))
  {
    hide Holds, Only, Results, Replies, PromptsTold, UpdatesTold, Updates, Prompts, ModelMessages, ResolveFrom, RelateFrom;
    hide Utterances, DigestText, Compact, LoadedFrom, QuotesAsked, LastClassified, Quoters, QuotedReply, Recent, Prior;
    var x := (Ask(cfg, batch, t).value, a);
    Snoc(cfg, batch, h, x);
    NothingAdded();
    assert t.msgs + [] == t.msgs;
    HoldsStep(cfg, batch, h, x, [], [], t.msgs, []);
  }

  /** What the model's answer does to the turn. */
  lemma ReplyEffect(cfg: Config, batch: seq<Item>, t: Turn, a: Answer)
    requires t.pc.Modeling? || t.pc.Forcing?
    ensures Ask(cfg, batch, t).Some? && Ask(cfg, batch, t).value.CallModel?
    ensures var u := Next(cfg, batch, t, a);
      u.pc.Threw? ||
      (&& a.Reply? && u.msgs == t.msgs + [Assistant(a.content, a.calls)] && u.reprompt == t.reprompt
       && (u.pc.Persisting? || u.pc == Tooling(a.calls, 0, false, [])))
  {
  }

  /** What the invariant says of a turn at its model, and of one behind it. */
  lemma AtReply(cfg: Config, batch: seq<Item>, t: Turn, h: seq<(Request, Answer)>)
    requires Recorded(cfg, batch, t, h) && (t.pc.Modeling? || t.pc.Forcing?)
    ensures h != [] && t.reprompt.None? && Holds(batch, h, [], t.msgs) && PromptsTold(cfg, h) == []
  {
    hide Holds, PromptsTold;
  }

  lemma BehindReply(cfg: Config, batch: seq<Item>, u: Turn, h: seq<(Request, Answer)>)
    requires u.pc.Threw?
      || (h != [] && u.reprompt.None? && Holds(batch, h, [], u.msgs) && PromptsTold(cfg, h) == []
          && (u.pc.Persisting? || (u.pc.Tooling? && !u.pc.parked && u.pc.prompts == [])))
    ensures Recorded(cfg, batch, u, h)
  {
    NoPrompts(cfg);
    hide Holds, PromptsTold, Prompts;
  }

  lemma ReplyHolds(cfg: Config, batch: seq<Item>, h: seq<(Request, Answer)>, x: (Request, Answer), msgs: seq<Message>)
    requires h != [] && Holds(batch, h, [], msgs) && PromptsTold(cfg, h) == [] && x.0.CallModel? && x.1.Reply?
    ensures Holds(batch, h + [x], [], msgs + [Assistant(x.1.content, x.1.calls)]) && PromptsTold(cfg, h + [x]) == []
  {
    ReplyPromptsNothing(cfg, batch, h, x);
    ReplyAlone(cfg, batch, h, x, msgs);
    hide *;
  }

  lemma ReplyPromptsNothing(cfg: Config, batch: seq<Item>, h: seq<(Request, Answer)>, x: (Request, Answer))
    requires PromptsTold(cfg, h) == [] && x.0.CallModel? && x.1.Reply?
    ensures PromptsTold(cfg, h + [x]) == []
  {
    Snoc(cfg, batch, h, x);
    hide PromptsTold, Results, Replies, UpdatesTold;
  }

  lemma ReplyAlone(cfg: Config, batch: seq<Item>, h: seq<(Request, Answer)>, x: (Request, Answer), msgs: seq<Message>)
    requires h != [] && Holds(batch, h, [], msgs) && x.0.CallModel? && x.1.Reply?
    ensures Holds(batch, h + [x], [], msgs + [Assistant(x.1.content, x.1.calls)])
  {
    var m := Assistant(x.1.content, x.1.calls);
    assert ResultOf(x) == [] && ReplyOf(x) == [m] && UpdateOf(batch, h, x) == [];
    OnlyOne(OfTool, m);
    OnlyOne(OfUser, m);
    OnlyOne(OfAssistant, m);
    hide *;
    HoldsStep(cfg, batch, h, x, [], [], msgs, [m]);
  }

  /** A model's answer is the one message it adds. */
  lemma RecordedReply(cfg: Config, batch: seq<Item>, t: Turn, h: seq<(Request, Answer)>, a: Answer)
    requires Recorded(cfg, batch, t, h) && (t.pc.Modeling? || t.pc.Forcing?)
    ensures Recorded(cfg, batch, Next(cfg, batch, t, a), Longer(cfg, batch, t, h, a))
  {
    ReplyEffect(cfg, batch, t, a);
    AtReply(cfg, batch, t, h);
    var x := (Ask(cfg, batch, t).value, a);
    assert Longer(cfg, batch, t, h, a) == h + [x];
    hide *;
    if a.Reply? { ReplyHolds(cfg, batch, h, x, t.msgs); }
    BehindReply(cfg, batch, Next(cfg, batch, t, a), h + [x]);
  }

  lemma PromptsSnoc(cfg: Config, calls: seq<ToolCall>, call: ToolCall)
    ensures Prompts(cfg, calls + [call]) == Prompts(cfg, calls) + [Assistant(PromptText(cfg.proposal(call)), [])]
  {
  }

  lemma NoPrompts(cfg: Config)
    ensures Prompts(cfg, []) == []
  {
  }

  lemma ArePrompts(cfg: Config, calls: seq<ToolCall>)
    ensures forall i :: 0 <= i < |Prompts(cfg, calls)| ==> Prompts(cfg, calls)[i].Assistant?
  {
  }

  /** What a result does to the turn. */
  lemma ResultEffect(cfg: Config, batch: seq<Item>, t: Turn, a: Answer)
    requires t.pc.Tooling? && t.pc.k < |t.pc.calls| && a.Result?
    ensures var u := Next(cfg, batch, t, a);
      var m := Tool(a.toolUseId, a.content);
      var prompts := if a.parked && a.actionId.Some? then t.pc.prompts + [t.pc.calls[t.pc.k]] else t.pc.prompts;
      && u.reprompt == t.reprompt
      && u.msgs == (if u.pc.Persisting? then t.msgs + ([m] + Prompts(cfg, prompts)) else t.msgs + [m])
      && (if u.pc.Tooling? then u.pc.prompts == prompts && u.pc.parked == (t.pc.parked || a.parked)
          else u.pc.Persisting? || (!t.pc.parked && !a.parked && (u.pc.Modeling? || u.pc.Forcing?)))
  {
    hide Prompts;
    assert forall tail: seq<Message> :: t.msgs + [Tool(a.toolUseId, a.content)] + tail == t.msgs + ([Tool(a.toolUseId, a.content)] + tail);
  }

  /** What the invariant says of a turn between two results. */
  lemma AtResult(cfg: Config, batch: seq<Item>, t: Turn, h: seq<(Request, Answer)>)
    requires Recorded(cfg, batch, t, h) && t.pc.Tooling?
    ensures h != [] && t.reprompt.None? && (!t.pc.parked ==> t.pc.prompts == [])
    ensures Holds(batch, h, [], t.msgs) && PromptsTold(cfg, h) == Prompts(cfg, t.pc.prompts)
  {
    hide Holds, PromptsTold, Prompts;
  }

  /** And what makes it hold behind one. */
  lemma BehindResult(cfg: Config, batch: seq<Item>, u: Turn, h: seq<(Request, Answer)>, prompts: seq<ToolCall>, parked: bool)
    requires h != [] && u.reprompt.None? && (!parked ==> prompts == []) && PromptsTold(cfg, h) == Prompts(cfg, prompts)
    requires match u.pc
      case Tooling(_, _, p, calls) => calls == prompts && p == parked && Holds(batch, h, [], u.msgs)
      case Persisting(_) => Holds(batch, h, Prompts(cfg, prompts), u.msgs)
      case Modeling => !parked && Holds(batch, h, [], u.msgs)
      case Forcing => !parked && Holds(batch, h, [], u.msgs)
      case _ => false
    ensures Recorded(cfg, batch, u, h)
  {
    hide Holds, PromptsTold;
  }

  /** A result is the one message it adds, or with the last one the prompts of all calls that parked. */
  lemma RecordedResult(cfg: Config, batch: seq<Item>, t: Turn, h: seq<(Request, Answer)>, a: Answer)
    requires Recorded(cfg, batch, t, h) && t.pc.Tooling?
    ensures Recorded(cfg, batch, Next(cfg, batch, t, a), Longer(cfg, batch, t, h, a))
  {
    if a.Result? && t.pc.k < |t.pc.calls| {
      LongerByResult(cfg, batch, t, h, a);
      ResultRecorded(cfg, batch, t, h, a);
    } else {
      NoResultThrows(cfg, batch, t, a);
    }
    hide *;
  }

  lemma LongerByResult(cfg: Config, batch: seq<Item>, t: Turn, h: seq<(Request, Answer)>, a: Answer)
    requires t.pc.Tooling? && t.pc.k < |t.pc.calls|
    ensures Longer(cfg, batch, t, h, a) == h + [(RunTool(t.pc.calls[t.pc.k]), a)]
  {
  }

  lemma ResultRecorded(cfg: Config, batch: seq<Item>, t: Turn, h: seq<(Request, Answer)>, a: Answer)
    requires Recorded(cfg, batch, t, h) && t.pc.Tooling? && t.pc.k < |t.pc.calls| && a.Result?
    ensures Recorded(cfg, batch, Next(cfg, batch, t, a), h + [(RunTool(t.pc.calls[t.pc.k]), a)])
  {
    hide *;
    var call := t.pc.calls[t.pc.k];
    var x := (RunTool(call), a);
    ResultEffect(cfg, batch, t, a);
    AtResult(cfg, batch, t, h);
    ResultTold(cfg, batch, t, h, x);
    var prompts := if a.parked && a.actionId.Some? then t.pc.prompts + [call] else t.pc.prompts;
    ResultAndPrompts(cfg, batch, h, x, prompts, t.msgs);
    ResultAlone(cfg, batch, h, x, t.msgs);
    BehindResult(cfg, batch, Next(cfg, batch, t, a), h + [x], prompts, t.pc.parked || a.parked);
  }

  lemma NoResultThrows(cfg: Config, batch: seq<Item>, t: Turn, a: Answer)
    requires t.pc.Tooling? && !(a.Result? && t.pc.k < |t.pc.calls|)
    ensures Next(cfg, batch, t, a).pc.Threw?
    ensures forall h :: Recorded(cfg, batch, Next(cfg, batch, t, a), h)
  {
  }

  /** The prompts told so far are those the turn remembers. */
  lemma ResultTold(cfg: Config, batch: seq<Item>, t: Turn, h: seq<(Request, Answer)>, x: (Request, Answer))
    requires t.pc.Tooling? && t.pc.k < |t.pc.calls| && x.0 == RunTool(t.pc.calls[t.pc.k]) && x.1.Result?
    requires PromptsTold(cfg, h) == Prompts(cfg, t.pc.prompts)
    ensures PromptsTold(cfg, h + [x]) ==
      Prompts(cfg, if x.1.parked && x.1.actionId.Some? then t.pc.prompts + [t.pc.calls[t.pc.k]] else t.pc.prompts)
  {
    PromptsSnoc(cfg, t.pc.prompts, t.pc.calls[t.pc.k]);
    Snoc(cfg, batch, h, x);
    assert Prompts(cfg, t.pc.prompts) + [] == Prompts(cfg, t.pc.prompts);
    hide PromptsTold, Prompts;
  }

  lemma ResultAlone(cfg: Config, batch: seq<Item>, h: seq<(Request, Answer)>, x: (Request, Answer), msgs: seq<Message>)
    requires h != [] && Holds(batch, h, [], msgs) && x.0.RunTool? && x.1.Result?
    ensures Holds(batch, h + [x], [], msgs + [Tool(x.1.toolUseId, x.1.content)])
  {
    var m := Tool(x.1.toolUseId, x.1.content);
    assert ResultOf(x) == [m] && ReplyOf(x) == [] && UpdateOf(batch, h, x) == [];
    OnlyOne(OfTool, m);
    OnlyOne(OfUser, m);
    OnlyOne(OfAssistant, m);
    hide *;
    HoldsStep(cfg, batch, h, x, [], [], msgs, [m]);
  }

  lemma ResultAndPrompts(cfg: Config, batch: seq<Item>, h: seq<(Request, Answer)>, x: (Request, Answer), calls: seq<ToolCall>, msgs: seq<Message>)
    requires h != [] && Holds(batch, h, [], msgs) && x.0.RunTool? && x.1.Result?
    ensures Holds(batch, h + [x], Prompts(cfg, calls), msgs + ([Tool(x.1.toolUseId, x.1.content)] + Prompts(cfg, calls)))
  {
    var m, closing := Tool(x.1.toolUseId, x.1.content), Prompts(cfg, calls);
    ArePrompts(cfg, calls);
    assert ResultOf(x) == [m] && ReplyOf(x) == [] && UpdateOf(batch, h, x) == [];
    hide *;
    RolesOf(m, closing);
    assert [] + closing == closing;
    HoldsStep(cfg, batch, h, x, [], closing, msgs, [m] + closing);
  }

  /** A result with closing messages behind it, role by role. */
  lemma RolesOf(m: Message, closing: seq<Message>)
    requires m.Tool? && forall i :: 0 <= i < |closing| ==> closing[i].Assistant?
    ensures Only(OfTool, [m] + closing) == [m] && Only(OfUser, [m] + closing) == [] && Only(OfAssistant, [m] + closing) == closing
  {
    OnlyOne(OfTool, m);
    OnlyOne(OfUser, m);
    OnlyOne(OfAssistant, m);
    PromptsAreReplies(closing);
    hide Only;
    OnlyConcat(OfTool, [m], closing);
    OnlyConcat(OfUser, [m], closing);
    OnlyConcat(OfAssistant, [m], closing);
  }

  /** Past its closing message a turn adds nothing. */
  lemma RecordedLate(cfg: Config, batch: seq<Item>, t: Turn, h: seq<(Request, Answer)>, a: Answer)
    requires Recorded(cfg, batch, t, h) && StatusOf(t.pc).Some?
    ensures Recorded(cfg, batch, Next(cfg, batch, t, a), Longer(cfg, batch, t, h, a))
  {
    hide Holds, Only, Results, Replies, PromptsTold, UpdatesTold, Updates, Prompts, ModelMessages, ResolveFrom, RelateFrom;
    hide Utterances, DigestText, Compact, LoadedFrom, QuotesAsked, LastClassified, Quoters, QuotedReply, Recent, Prior;
    LateAsks(cfg, batch, t, a);
    LateStatus(cfg, batch, t, a);
    LateKeeps(cfg, batch, t, a);
    var r, u := Ask(cfg, batch, t), Next(cfg, batch, t, a);
    if r.Some? {
      var x := (r.value, a);
      LateAsksNothing(cfg, batch, t);
      Snoc(cfg, batch, h, x);
      NothingAdded();
      var told := PromptsTold(cfg, h);
      assert t.msgs + [] == t.msgs && told + [] == told && [] + told == told;
      assert PromptOf(cfg, x) == [] && ResultOf(x) == [] && ReplyOf(x) == [] && UpdateOf(batch, h, x) == [];
      hide Next, Ask;
      HoldsStep(cfg, batch, h, x, PromptsTold(cfg, h), PromptsTold(cfg, h), t.msgs, []);
    } else {
      assert h + [] == h;
      hide Next, Ask;
    }
  }

  lemma LateKeeps(cfg: Config, batch: seq<Item>, t: Turn, a: Answer)
    requires StatusOf(t.pc).Some?
    ensures Next(cfg, batch, t, a).reprompt == t.reprompt
  {
  }

  lemma LateAsksNothing(cfg: Config, batch: seq<Item>, t: Turn)
    requires StatusOf(t.pc).Some?
    ensures var r := Ask(cfg, batch, t);
      r.Some? ==> !r.value.CallModel? && !r.value.RunTool? && !r.value.RefineAction? && !r.value.ResolveApproval?
                  && !r.value.ResolveDecision? && !r.value.Classify?
  {
  }

  lemma RecordedStep(cfg: Config, batch: seq<Item>, t: Turn, h: seq<(Request, Answer)>, a: Answer)
    requires Recorded(cfg, batch, t, h)
    ensures Recorded(cfg, batch, Next(cfg, batch, t, a), Longer(cfg, batch, t, h, a))
  {
    if StatusOf(t.pc).Some? {
      RecordedLate(cfg, batch, t, h, a);
    } else {
      match t.pc
      case Loading =>
        RecordedLoading(cfg, batch, t, a);
        assert h + [(LoadContext, a)] == [(LoadContext, a)];
      case Resolving(_) => RecordedQuote(cfg, batch, t, h, a);
      case Digesting => RecordedDigest(cfg, batch, t, h, a);
      case Redigesting => RecordedDigest(cfg, batch, t, h, a);
      case Classifying(_, _) => RecordedVerdict(cfg, batch, t, h, a);
      case Deciding(_, _, _) => RecordedDecision(cfg, batch, t, h, a);
      case AtRefine(_, _, _) => RecordedRefinement(cfg, batch, t, h, a);
      case Tooling(_, _, _, _) => RecordedResult(cfg, batch, t, h, a);
      case Threw =>
      case _ => if t.pc.Modeling? || t.pc.Forcing? { RecordedReply(cfg, batch, t, h, a); } else { RecordedRoute(cfg, batch, t, h, a); }
    }
  }

  lemma {:induction false} RecordedRun(cfg: Config, batch: seq<Item>, answers: seq<Answer>)
    ensures Recorded(cfg, batch, D.Fold(TheProgram(cfg, batch), answers), Record(cfg, batch, answers))
    decreases |answers|
  {
    if answers != [] {
      var n := |answers| - 1;
      RecordedRun(cfg, batch, answers[..n]);
      RecordedStep(cfg, batch, D.Fold(TheProgram(cfg, batch), answers[..n]), Record(cfg, batch, answers[..n]), answers[n]);
    }
  }

  /**
   For every answer to every step, what the model is shown and what is persisted
   whole: the loaded transcript, the batch's messages, and then, of each role in its
   order, exactly what the record tells.  Every tool result; every answer of the model
   with its calls; every settled outcome, under the name of whoever said so; and, once
   the turn closes, one prompt for each parked action or for the applied refinement.
   */
  lemma TranscriptIsTheRecord(cfg: Config, batch: seq<Item>, answers: seq<Answer>)
    ensures var t := D.Fold(TheProgram(cfg, batch), answers);
      var h := Record(cfg, batch, answers);
      match Ask(cfg, batch, t)
      case Some(CallModel(msgs, _, _, _)) => Holds(batch, h, [], msgs)
      case Some(Persist(transcript)) => t.pc.PersistingCompacted? || Holds(batch, h, PromptsTold(cfg, h), transcript)
      case _ => true
  {
    RecordedRun(cfg, batch, answers);
    hide D.Fold, D.Exchanges, Holds, PromptsTold, ModelMessages;
    AskedShown(cfg, batch, D.Fold(TheProgram(cfg, batch), answers));
    hide Ask;
  }

  lemma AskedShown(cfg: Config, batch: seq<Item>, t: Turn)
    ensures match Ask(cfg, batch, t)
      case Some(CallModel(msgs, _, _, _)) => msgs == t.msgs && StatusOf(t.pc).None? && !t.pc.Loading? && !t.pc.Threw?
      case Some(Persist(transcript)) => t.pc.PersistingCompacted? || (transcript == t.msgs && StatusOf(t.pc).Some?)
      case _ => true
  {
  }

  /** The batch itself reaches the model word for word: an utterance as its sender's, a reminder marked as one, an update as it is. */
  lemma ModelReadsTheBatch(cfg: Config, batch: seq<Item>, answers: seq<Answer>, i: nat)
    requires i < |batch|
    ensures match Ask(cfg, batch, D.Fold(TheProgram(cfg, batch), answers))
      case Some(CallModel(msgs, _, _, _)) =>
        var at := |LoadedFrom(Record(cfg, batch, answers))| + i;
        var p := batch[i].payload;
        && at < |msgs| && msgs[at].User? && msgs[at].sender == batch[i].senderId
        && (p.text.Some? ==> msgs[at].content == p.text.value)
        && (p.text.None? && p.reminder.Some? ==> msgs[at].content == "[reminder] " + p.reminder.value)
        && (p.text.None? && p.reminder.None? && p.actionUpdate.Some? ==> msgs[at].content == p.actionUpdate.value)
        && (p.text.None? && p.reminder.None? && p.actionUpdate.None? ==> msgs[at].content == p.json)
      case _ => true
  {
    RecordedRun(cfg, batch, answers);
    var t := D.Fold(TheProgram(cfg, batch), answers);
    var h := Record(cfg, batch, answers);
    hide D.Fold, D.Exchanges, Only, Results, Replies, UpdatesTold, PromptsTold, Speaker, PromptsKept, ResolveFrom, RelateFrom;
    if !t.pc.Loading? && !t.pc.Threw? { BatchIsIn(batch, h, Said(cfg, t, h), t.msgs, i); }
  }

  lemma BatchIsIn(batch: seq<Item>, h: seq<(Request, Answer)>, prompts: seq<Message>, msgs: seq<Message>, i: nat)
    requires Holds(batch, h, prompts, msgs) && i < |batch|
    ensures |LoadedFrom(h)| + i < |msgs| && msgs[|LoadedFrom(h)| + i] == ModelMessage(batch[i])
  {
    hide Only, LoadedFrom;
    var base := LoadedFrom(h) + ModelMessages(batch);
    assert base[|LoadedFrom(h)| + i] == ModelMessages(batch)[i] == ModelMessage(batch[i]);
  }

  // ----- What an update and a prompt say -----

  /** The text holds the part. */
  ghost predicate Says(text: string, part: string) {
    exists i: nat, j: nat :: i <= j <= |text| && text[i..j] == part
  }

  lemma SaysMore(text: string, more: string, part: string)
    requires Says(text, part)
    ensures Says(text + more, part)
  {
    var i: nat, j: nat :| i <= j <= |text| && text[i..j] == part;
    assert (text + more)[i..j] == part;
  }

  lemma SaysEnd(text: string, end: string)
    ensures Says(text + end, end)
  {
    assert (text + end)[|text|..|text + end|] == end;
  }

  /** What a settled outcome's line must tell besides the action and whose word it was. */
  ghost predicate TellsOutcome(line: string, outcome: Approval) {
    match outcome
    case Executed(id, tool, result) => Says(line, id) && Says(line, " and done: " + result)
    case Denied(id, tool) => Says(line, id) && Says(line, " — nothing was executed.")
    case Stale(id, tool) => Says(line, id) && Says(line, Invalid)
    case Failed(id, tool, message) => Says(line, id) && Says(line, message) && Says(line, StillPending)
    case AlreadyResolved(id, status) => Says(line, id) && Says(line, ", but it was already " + status) && Says(line, " — nothing changed.")
    case _ => false
  }

  const Invalid := " but failed its revalidation check — it is no longer valid and was NOT executed."

  const StillPending := ") — it is STILL PENDING and was not executed; approving it again will retry."

  /**
   An outcome that settled nothing is not told at all; any other is one message of the
   system's, marked as an action update, that names the action, whose word it was, and
   what became of it.
   */
  lemma UpdateTells(outcome: Approval, who: string)
    ensures outcome.Unbound? || outcome.Unclear? ==> Updates(outcome, who) == []
    ensures !outcome.Unbound? && !outcome.Unclear? ==> Tells(outcome, who)
  {
    match outcome
    case Executed(id, tool, result) => ExecutedTells(id, tool, result, who);
    case Denied(id, tool) => DeniedTells(id, tool, who);
    case Stale(id, tool) => StaleTells(id, tool, who);
    case Failed(id, tool, message) => FailedTells(id, tool, message, who);
    case AlreadyResolved(id, status) => AlreadyResolvedTells(id, status, who);
    case _ =>
  }

  /** How every line about a decision begins. */
  function Header(id: string, tool: string, verb: string, who: string): string {
    "[action update] " + id + " (" + tool + verb + who
  }

  lemma HeaderSays(id: string, tool: string, verb: string, who: string)
    ensures var line := Header(id, tool, verb, who);
      "[action update] " <= line && Says(line, id) && Says(line, who)
  {
    var l1 := "[action update] " + id;
    SaysEnd("[action update] ", id);
    var l2 := l1 + " (";
    SaysMore(l1, " (", id);
    var l3 := l2 + tool;
    SaysMore(l2, tool, id);
    var l4 := l3 + verb;
    SaysMore(l3, verb, id);
    SaysMore(l4, who, id);
    SaysEnd(l4, who);
    Begins("[action update] ", id, l1);
    Begins(l1, " (", l2);
    Begins(l2, tool, l3);
    Begins(l3, verb, l4);
    Begins(l4, who, l4 + who);
    hide *;
  }

  lemma Begins(a: string, b: string, c: string)
    requires c == a + b
    ensures a <= c
  {
  }

  /** One more piece of a line. */
  lemma LineGrows(line: string, more: string, id: string, who: string)
    requires "[action update] " <= line && Says(line, id) && Says(line, who)
    ensures "[action update] " <= line + more && Says(line + more, id) && Says(line + more, who) && Says(line + more, more)
  {
    SaysMore(line, more, id);
    SaysMore(line, more, who);
    SaysEnd(line, more);
    hide Says;
  }

  lemma ExecutedTells(id: string, tool: string, result: string, who: string)
    ensures Tells(Executed(id, tool, result), who)
  {
    var line := Header(id, tool, ") approved by ", who);
    HeaderSays(id, tool, ") approved by ", who);
    LineGrows(line, " and done: " + result, id, who);
    Assoc(line, " and done: ", result);
    hide Says;
  }

  lemma Assoc(a: string, b: string, c: string)
    ensures a + b + c == a + (b + c)
  {
  }

  lemma DeniedTells(id: string, tool: string, who: string)
    ensures Tells(Denied(id, tool), who)
  {
    HeaderSays(id, tool, ") declined by ", who);
    LineGrows(Header(id, tool, ") declined by ", who), " — nothing was executed.", id, who);
    hide Says;
  }

  lemma StaleTells(id: string, tool: string, who: string)
    ensures Tells(Stale(id, tool), who)
  {
    HeaderSays(id, tool, ") was approved by ", who);
    LineGrows(Header(id, tool, ") was approved by ", who), Invalid, id, who);
    hide Says;
  }

  lemma FailedTells(id: string, tool: string, message: string, who: string)
    ensures Tells(Failed(id, tool, message), who)
  {
    var l1 := Header(id, tool, ") was approved by ", who);
    HeaderSays(id, tool, ") was approved by ", who);
    var l2 := l1 + " but the action could not be completed (";
    LineGrows(l1, " but the action could not be completed (", id, who);
    LineGrows(l2, message, id, who);
    LineGrows(l2 + message, StillPending, id, who);
    SaysMore(l2 + message, StillPending, message);
    hide Says;
  }

  lemma AlreadyResolvedTells(id: string, status: string, who: string)
    ensures Tells(AlreadyResolved(id, status), who)
  {
    var l1 := "[action update] " + who;
    SaysEnd("[action update] ", who);
    var l2 := l1 + " answered the prompt for ";
    SaysMore(l1, " answered the prompt for ", who);
    var l3 := l2 + id;
    SaysMore(l2, id, who);
    SaysEnd(l2, id);
    Begins("[action update] ", who, l1);
    Begins(l1, " answered the prompt for ", l2);
    Begins(l2, id, l3);
    var end := ", but it was already " + status;
    LineGrows(l3, end, id, who);
    Assoc(l3, ", but it was already ", status);
    LineGrows(l3 + end, " — nothing changed.", id, who);
    SaysMore(l3 + end, " — nothing changed.", end);
    hide Says;
  }

  /** One system message, told under that name and about that outcome. */
  ghost predicate Tells(outcome: Approval, who: string) {
    var more := Updates(outcome, who);
    && |more| == 1 && more[0].User? && more[0].sender == "system:hitl"
    && "[action update] " <= more[0].content && Says(more[0].content, who) && TellsOutcome(more[0].content, outcome)
  }

  /** A closing prompt shows the proposal it asks about. */
  lemma PromptShowsProposal(summary: string)
    ensures summary <= PromptText(summary) && PromptText(summary) != summary
  {
  }
}
