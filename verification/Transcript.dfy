/**
 The persisted transcript, its grammar, its conversion for the model SDK, and its
 compaction.
 */
module Transcript {
  import opened Prelude

  datatype ToolCall = ToolCall(id: string, name: string, args: string)

  datatype Message =
    | User(sender: string, content: string)
    | Assistant(content: string, calls: seq<ToolCall>)
    | Tool(toolUseId: string, content: string)

  // ----- The grammar -----

  /** The messages are the results of the calls: one each, in the calls' order. */
  predicate Answered(calls: seq<ToolCall>, results: seq<Message>) {
    && |calls| == |results|
    && forall i :: 0 <= i < |calls| ==> results[i].Tool? && results[i].toolUseId == calls[i].id
  }

  /** Every assistant message's calls are answered right after it, and there is no other result. */
  predicate Grammar(msgs: seq<Message>)
    decreases |msgs|
  {
    if msgs == [] then true
    else match msgs[0]
      case User(_, _) => Grammar(msgs[1..])
      case Tool(_, _) => false
      case Assistant(_, calls) =>
        && 1 + |calls| <= |msgs|
        && Answered(calls, msgs[1..1 + |calls|])
        && Grammar(msgs[1 + |calls|..])
  }

  /** A turn's transcript ends in an assistant message that asks for nothing. */
  predicate Ended(msgs: seq<Message>) {
    msgs != [] && msgs[|msgs| - 1].Assistant? && msgs[|msgs| - 1].calls == []
  }

  /** What a turn may persist; the empty transcript is a conversation's start. */
  predicate Closed(msgs: seq<Message>) {
    Grammar(msgs) && (msgs == [] || Ended(msgs))
  }

  /** The message that comes first, with its results if it has any. */
  function HeadLength(msgs: seq<Message>): nat
    requires msgs != []
  {
    if msgs[0].Assistant? then 1 + |msgs[0].calls| else 1
  }

  lemma CutAfterHead(msgs: seq<Message>, cut: nat)
    requires Grammar(msgs) && 0 < cut < |msgs| && msgs[cut].User?
    ensures HeadLength(msgs) <= cut && Grammar(msgs[HeadLength(msgs)..])
  {
    var n := HeadLength(msgs);
    assert forall i :: 1 <= i < n ==> msgs[i] == msgs[1..n][i - 1];
  }

  lemma HeadGoesOn(msgs: seq<Message>, cut: nat)
    requires Grammar(msgs) && msgs != [] && HeadLength(msgs) <= cut <= |msgs| && Grammar(msgs[..cut][HeadLength(msgs)..])
    ensures Grammar(msgs[..cut])
  {
    assert msgs[..cut][1..HeadLength(msgs)] == msgs[1..HeadLength(msgs)];
  }

  /** Cutting before a user message orphans no result: both sides keep the grammar. */
  lemma {:induction false} GrammarCut(msgs: seq<Message>, cut: nat)
    requires Grammar(msgs) && cut < |msgs| && msgs[cut].User?
    ensures Grammar(msgs[..cut]) && Grammar(msgs[cut..])
    decreases |msgs|
  {
    if cut > 0 {
      var n := HeadLength(msgs);
      CutAfterHead(msgs, cut);
      assert msgs[n..][cut - n] == msgs[cut];
      GrammarCut(msgs[n..], cut - n);
      assert msgs[n..][..cut - n] == msgs[..cut][n..] && msgs[n..][cut - n..] == msgs[cut..];
      HeadGoesOn(msgs, cut);
      hide Grammar;
    } else {
      assert msgs[0..] == msgs;
    }
  }

  // ----- The grammar as a reader that goes from left to right -----

  /** The calls still to be answered after one more message, or None when it may not come now. */
  function Reading(pending: seq<ToolCall>, m: Message): Option<seq<ToolCall>> {
    match m
    case User(_, _) => if pending == [] then Some([]) else None
    case Assistant(_, calls) => if pending == [] then Some(calls) else None
    case Tool(id, _) => if pending != [] && pending[0].id == id then Some(pending[1..]) else None
  }

  function Scan(pending: seq<ToolCall>, msgs: seq<Message>): Option<seq<ToolCall>>
    decreases |msgs|
  {
    if msgs == [] then Some(pending)
    else match Reading(pending, msgs[0])
      case None => None
      case Some(next) => Scan(next, msgs[1..])
  }

  lemma {:induction false} ScanConcat(pending: seq<ToolCall>, a: seq<Message>, b: seq<Message>)
    requires Scan(pending, a).Some?
    ensures Scan(pending, a + b) == Scan(Scan(pending, a).value, b)
    decreases |a|
  {
    if a == [] {
      assert a + b == b;
    } else {
      assert (a + b)[1..] == a[1..] + b;
      ScanConcat(Reading(pending, a[0]).value, a[1..], b);
    }
  }

  lemma {:induction false} ScanAnswers(calls: seq<ToolCall>, msgs: seq<Message>)
    ensures Scan(calls, msgs) == Some([]) <==>
      |calls| <= |msgs| && Answered(calls, msgs[..|calls|]) && Scan([], msgs[|calls|..]) == Some([])
    decreases |calls|
  {
    if calls == [] {
      assert msgs[..0] == [] && msgs[0..] == msgs;
    } else if msgs != [] && msgs[0].Tool? && msgs[0].toolUseId == calls[0].id {
      ScanAnswers(calls[1..], msgs[1..]);
      if |calls| <= |msgs| {
        var rest := msgs[1..][..|calls| - 1];
        assert msgs[1..][|calls| - 1..] == msgs[|calls|..];
        assert forall i :: 1 <= i < |calls| ==> msgs[..|calls|][i] == rest[i - 1] && calls[i] == calls[1..][i - 1];
        assert forall i :: 0 <= i < |calls| - 1 ==> rest[i] == msgs[..|calls|][i + 1];
      }
    } else if |calls| <= |msgs| {
      assert msgs[..|calls|][0] == msgs[0];
    }
  }

  /** The reader accepts exactly the grammar. */
  lemma {:induction false} ScanIsGrammar(msgs: seq<Message>)
    ensures Scan([], msgs) == Some([]) <==> Grammar(msgs)
    decreases |msgs|
  {
    if msgs != [] {
      var m := msgs[0];
      match m {
        case User(_, _) => ScanIsGrammar(msgs[1..]);
        case Tool(_, _) =>
        case Assistant(_, calls) =>
          ScanAnswers(calls, msgs[1..]);
          if 1 + |calls| <= |msgs| {
            assert msgs[1..][..|calls|] == msgs[1..1 + |calls|];
            assert msgs[1..][|calls|..] == msgs[1 + |calls|..];
            ScanIsGrammar(msgs[1 + |calls|..]);
          }
      }
    }
  }

  /** Messages that ask for nothing and answer nothing. */
  lemma {:induction false} ScanPlain(msgs: seq<Message>)
    requires forall i :: 0 <= i < |msgs| ==> msgs[i].User? || (msgs[i].Assistant? && msgs[i].calls == [])
    ensures Scan([], msgs) == Some([])
    decreases |msgs|
  {
    if msgs != [] { ScanPlain(msgs[1..]); }
  }

  // ----- Conversion for the SDK -----

  datatype Part = Text(text: string) | CallPart(id: string, name: string, args: string)

  datatype SdkMessage =
    | System(content: string)
    | SdkUser(content: string)
    | SdkAssistant(parts: seq<Part>)
    | SdkResult(id: string, name: string, value: string)

  datatype Conversion = Converted(messages: seq<SdkMessage>) | Orphan(toolUseId: string)

  function CallParts(calls: seq<ToolCall>): seq<Part> {
    seq(|calls|, i requires 0 <= i < |calls| => CallPart(calls[i].id, calls[i].name, calls[i].args))
  }

  /** The names of all calls by id; a later call of the same id wins. */
  function Names(msgs: seq<Message>): map<string, string>
    decreases |msgs|
  {
    if msgs == [] then map[]
    else
      var n := |msgs| - 1;
      if msgs[n].Assistant? then NamesOf(Names(msgs[..n]), msgs[n].calls) else Names(msgs[..n])
  }

  function NamesOf(names: map<string, string>, calls: seq<ToolCall>): map<string, string>
    decreases |calls|
  {
    if calls == [] then names
    else NamesOf(names, calls[..|calls| - 1])[calls[|calls| - 1].id := calls[|calls| - 1].name]
  }

  predicate Called(msgs: seq<Message>, id: string) {
    exists i, k :: 0 <= i < |msgs| && msgs[i].Assistant? && 0 <= k < |msgs[i].calls| && msgs[i].calls[k].id == id
  }

  lemma {:induction false} NamesOfKeys(names: map<string, string>, calls: seq<ToolCall>, id: string)
    ensures id in NamesOf(names, calls) <==> id in names || exists k :: 0 <= k < |calls| && calls[k].id == id
    decreases |calls|
  {
    if calls != [] {
      NamesOfKeys(names, calls[..|calls| - 1], id);
      assert calls[|calls| - 1].id == id ==> exists k :: 0 <= k < |calls| && calls[k].id == id;
    }
  }

  lemma CalledSnoc(msgs: seq<Message>, id: string)
    requires msgs != []
    ensures var n := |msgs| - 1;
      Called(msgs, id) <==> Called(msgs[..n], id) || (msgs[n].Assistant? && exists k :: 0 <= k < |msgs[n].calls| && msgs[n].calls[k].id == id)
  {
    var n := |msgs| - 1;
    var before := msgs[..n];
    if Called(before, id) {
      var i, k :| 0 <= i < n && before[i].Assistant? && 0 <= k < |before[i].calls| && before[i].calls[k].id == id;
      assert msgs[i].calls[k].id == id;
    }
    if Called(msgs, id) {
      var i, k :| 0 <= i < |msgs| && msgs[i].Assistant? && 0 <= k < |msgs[i].calls| && msgs[i].calls[k].id == id;
      if i < n { assert before[i].calls[k].id == id; }
    }
  }

  lemma {:induction false} NamesAreCalls(msgs: seq<Message>, id: string)
    ensures id in Names(msgs) <==> Called(msgs, id)
    decreases |msgs|
  {
    if msgs != [] {
      var n := |msgs| - 1;
      NamesAreCalls(msgs[..n], id);
      CalledSnoc(msgs, id);
      if msgs[n].Assistant? { NamesOfKeys(Names(msgs[..n]), msgs[n].calls, id); }
    }
  }

  /** Some call of that id has that name. */
  predicate CalledAs(msgs: seq<Message>, id: string, name: string) {
    exists i, k :: 0 <= i < |msgs| && msgs[i].Assistant? && 0 <= k < |msgs[i].calls| && msgs[i].calls[k].id == id && msgs[i].calls[k].name == name
  }

  lemma {:induction false} NamesOfAre(names: map<string, string>, calls: seq<ToolCall>, id: string)
    requires id in NamesOf(names, calls)
    ensures (id in names && NamesOf(names, calls)[id] == names[id])
         || exists k :: 0 <= k < |calls| && calls[k].id == id && calls[k].name == NamesOf(names, calls)[id]
    decreases |calls|
  {
    if calls != [] && calls[|calls| - 1].id != id {
      NamesOfAre(names, calls[..|calls| - 1], id);
    }
  }

  /** The name table holds names that were called. */
  lemma {:induction false} NamesAreCalled(msgs: seq<Message>, id: string)
    requires id in Names(msgs)
    ensures CalledAs(msgs, id, Names(msgs)[id])
    decreases |msgs|
  {
    var n := |msgs| - 1;
    var before := msgs[..n];
    var name := Names(msgs)[id];
    if msgs[n].Assistant? { NamesOfAre(Names(before), msgs[n].calls, id); }
    if id in Names(before) && Names(before)[id] == name {
      NamesAreCalled(before, id);
      var i, k :| 0 <= i < n && before[i].Assistant? && 0 <= k < |before[i].calls| && before[i].calls[k].id == id && before[i].calls[k].name == name;
      assert msgs[i].calls[k].id == id && msgs[i].calls[k].name == name;
    } else {
      var k :| 0 <= k < |msgs[n].calls| && msgs[n].calls[k].id == id && msgs[n].calls[k].name == name;
      assert msgs[n].calls[k].id == id && msgs[n].calls[k].name == name;
    }
  }

  /** A message as the SDK gets it: nothing of it is lost, and a result carries the name of its call. */
  predicate Converts(msgs: seq<Message>, msg: Message, sdk: SdkMessage) {
    match msg
    case User(sender, content) => sdk == SdkUser(sender + ": " + content)
    case Tool(id, content) => sdk.SdkResult? && sdk.id == id && sdk.value == content && CalledAs(msgs, id, sdk.name)
    case Assistant(content, calls) =>
      && sdk.SdkAssistant?
      && var first := if content == "" then 0 else 1;
         && |sdk.parts| == first + |calls| && (content != "" ==> sdk.parts[0] == Text(content))
         && forall k :: 0 <= k < |calls| ==> sdk.parts[first + k] == CallPart(calls[k].id, calls[k].name, calls[k].args)
  }

  lemma SdkConverts(msgs: seq<Message>, msg: Message)
    requires msg.Tool? ==> msg.toolUseId in Names(msgs)
    ensures Converts(msgs, msg, SdkOf(msg, Names(msgs)))
  {
    if msg.Tool? { NamesAreCalled(msgs, msg.toolUseId); }
  }

  function SdkOf(msg: Message, names: map<string, string>): SdkMessage
    requires msg.Tool? ==> msg.toolUseId in names
  {
    match msg
    case User(sender, content) => SdkUser(sender + ": " + content)
    case Assistant(content, calls) => SdkAssistant((if content == "" then [] else [Text(content)]) + CallParts(calls))
    case Tool(id, content) => SdkResult(id, names[id], content)
  }

  /**
   Fills the name table, then converts message by message; a result whose id no
   assistant message called stops it.  `blocks` are the system blocks in front.
   */
  method ToSdkMessages(blocks: seq<string>, msgs: seq<Message>) returns (r: Conversion)
    ensures r.Converted? <==> forall i :: 0 <= i < |msgs| && msgs[i].Tool? ==> Called(msgs, msgs[i].toolUseId)
    ensures r.Converted? ==>
      && |r.messages| == |blocks| + |msgs|
      && (forall i :: 0 <= i < |blocks| ==> r.messages[i] == System(blocks[i]))
      && (forall i :: 0 <= i < |msgs| ==>
            && (msgs[i].Tool? ==> msgs[i].toolUseId in Names(msgs))
            && r.messages[|blocks| + i] == SdkOf(msgs[i], Names(msgs))
            && Converts(msgs, msgs[i], r.messages[|blocks| + i]))
    ensures r.Orphan? ==>
      exists i :: 0 <= i < |msgs| && msgs[i].Tool? && msgs[i].toolUseId == r.toolUseId && !Called(msgs, r.toolUseId)
  {
    var names: map<string, string> := map[];
    for i := 0 to |msgs|
      invariant names == Names(msgs[..i])
    {
      assert msgs[..i + 1][..i] == msgs[..i];
      if msgs[i].Assistant? {
        ghost var before := names;
        var calls := msgs[i].calls;
        for k := 0 to |calls|
          invariant names == NamesOf(before, calls[..k])
        {
          assert calls[..k + 1][..k] == calls[..k];
          names := names[calls[k].id := calls[k].name];
        }
        assert calls[..|calls|] == calls;
      }
    }
    assert msgs[..|msgs|] == msgs;
    var sdk := seq(|blocks|, i requires 0 <= i < |blocks| => System(blocks[i]));
    for i := 0 to |msgs|
      invariant |sdk| == |blocks| + i
      invariant forall k :: 0 <= k < |blocks| ==> sdk[k] == System(blocks[k])
      invariant forall k :: 0 <= k < i ==>
        (msgs[k].Tool? ==> msgs[k].toolUseId in names) && sdk[|blocks| + k] == SdkOf(msgs[k], names)
      invariant forall k :: 0 <= k < i && msgs[k].Tool? ==> Called(msgs, msgs[k].toolUseId)
    {
      if msgs[i].Tool? {
        NamesAreCalls(msgs, msgs[i].toolUseId);
        if msgs[i].toolUseId !in names { return Orphan(msgs[i].toolUseId); }
      }
      sdk := sdk + [SdkOf(msgs[i], names)];
    }
    forall i | 0 <= i < |msgs| ensures Converts(msgs, msgs[i], sdk[|blocks| + i]) { SdkConverts(msgs, msgs[i]); }
    return Converted(sdk);
  }

  /** In a grammatical transcript every result has its call, so the conversion never stops. */
  lemma {:induction false} GrammarConverts(msgs: seq<Message>, i: nat)
    requires Grammar(msgs) && i < |msgs| && msgs[i].Tool?
    ensures Called(msgs, msgs[i].toolUseId)
    decreases |msgs|
  {
    var n := if msgs[0].Assistant? then 1 + |msgs[0].calls| else 1;
    if i < n {
      assert msgs[1..n][i - 1] == msgs[i];
      assert msgs[0].calls[i - 1].id == msgs[i].toolUseId;
    } else {
      assert msgs[n..][i - n] == msgs[i];
      GrammarConverts(msgs[n..], i - n);
      var j, k :| 0 <= j < |msgs[n..]| && msgs[n..][j].Assistant? && 0 <= k < |msgs[n..][j].calls|
                && msgs[n..][j].calls[k].id == msgs[i].toolUseId;
      assert msgs[n + j].calls[k].id == msgs[i].toolUseId;
    }
  }

  // ----- Compaction -----

  datatype CompactionConfig = CompactionConfig(thresholdMessages: int, keepMessages: int)

  predicate ShouldCompact(msgs: seq<Message>, cfg: CompactionConfig) {
    |msgs| > cfg.thresholdMessages
  }

  /** A cut is allowed at a user message other than the first that keeps enough live. */
  predicate CanCut(msgs: seq<Message>, cfg: CompactionConfig, i: int) {
    1 <= i < |msgs| && i <= |msgs| - cfg.keepMessages && msgs[i].User?
  }

  /** The largest allowed cut at or below i. */
  function LastCut(msgs: seq<Message>, cfg: CompactionConfig, i: int): (cut: Option<int>)
    requires i < |msgs|
    ensures cut.Some? ==> 1 <= cut.value <= i && msgs[cut.value].User? && forall k :: cut.value < k <= i ==> !msgs[k].User?
    ensures cut.None? ==> forall k :: 1 <= k <= i ==> !msgs[k].User?
    decreases i
  {
    if i < 1 then None else if msgs[i].User? then Some(i) else LastCut(msgs, cfg, i - 1)
  }

  function CompactionCut(msgs: seq<Message>, cfg: CompactionConfig): Option<int> {
    var maxCut := |msgs| - cfg.keepMessages;
    LastCut(msgs, cfg, if maxCut < |msgs| - 1 then maxCut else |msgs| - 1)
  }

  /** The downward search: the largest allowed cut, or none when there is none. */
  method FindCompactionCut(msgs: seq<Message>, cfg: CompactionConfig) returns (cut: Option<int>)
    ensures cut == CompactionCut(msgs, cfg)
    ensures cut.Some? ==> CanCut(msgs, cfg, cut.value) && forall i :: CanCut(msgs, cfg, i) ==> i <= cut.value
    ensures cut.None? ==> forall i :: !CanCut(msgs, cfg, i)
  {
    var maxCut := |msgs| - cfg.keepMessages;
    var top := if maxCut < |msgs| - 1 then maxCut else |msgs| - 1;
    var i := top;
    while i >= 1
      invariant i <= top
      invariant LastCut(msgs, cfg, top) == LastCut(msgs, cfg, i)
      invariant forall k :: i < k <= top && 1 <= k ==> !msgs[k].User?
    {
      if msgs[i].User? { return Some(i); }
      i := i - 1;
    }
    return None;
  }

  const SummaryPrefix := "Summary of the earlier conversation (fuller detail may be recallable via recall_history):\n"

  function BuildCompacted(summary: string, tail: seq<Message>): seq<Message> {
    [User("system:compaction", SummaryPrefix + summary)] + tail
  }

  /** Compaction never corrupts: the compacted transcript is closed, ends as before, and keeps the recent window. */
  lemma CompactionKeepsClosed(msgs: seq<Message>, cfg: CompactionConfig, summary: string)
    requires Closed(msgs) && CompactionCut(msgs, cfg).Some?
    ensures var cut := CompactionCut(msgs, cfg).value;
      && 1 <= cut < |msgs|
      && var after := BuildCompacted(summary, msgs[cut..]);
         Closed(after) && after[|after| - 1] == msgs[|msgs| - 1] && |after| >= 1 + cfg.keepMessages
  {
    var cut := CompactionCut(msgs, cfg).value;
    GrammarCut(msgs, cut);
    var after := BuildCompacted(summary, msgs[cut..]);
    assert after[1..] == msgs[cut..];
  }
}
