/**
 Tool-call pairing: a provider accepts a conversation only when every assistant message with
 calls is followed at once by one tool reply per call, in order.
 */
module Pairing {
  import opened Prelude
  import opened Chat

  function CallIds(calls: seq<ToolCall>): seq<string> {
    seq(|calls|, i requires 0 <= i < |calls| => calls[i].id)
  }

  /** The ids a conversation still waits for after one more message; None when it is out of order. */
  function AwaitAfter(waiting: seq<string>, m: ChatMessage): Option<seq<string>> {
    if m.role == Role.Tool then
      if waiting != [] && m.toolCallId == Some(waiting[0]) && m.toolCalls == [] then Some(waiting[1..]) else None
    else if waiting != [] || m.toolCallId.Some? then None
    else if m.toolCalls == [] then Some([])
    else if m.role == Assistant then Some(CallIds(m.toolCalls))
    else None
  }

  function Awaiting(messages: seq<ChatMessage>): Option<seq<string>> {
    if messages == [] then Some([])
    else match Awaiting(messages[..|messages| - 1])
      case None => None
      case Some(waiting) => AwaitAfter(waiting, messages[|messages| - 1])
  }

  predicate Paired(messages: seq<ChatMessage>) {
    Awaiting(messages) == Some([])
  }

  lemma PushAwaits(messages: seq<ChatMessage>, m: ChatMessage)
    ensures Awaiting(messages + [m])
            == match Awaiting(messages)
               case None => None
               case Some(waiting) => AwaitAfter(waiting, m)
  {
    assert (messages + [m])[..|messages|] == messages;
  }

  /** A message that neither calls a tool nor answers a call. */
  predicate IsPlainMessage(m: ChatMessage) {
    m.role != Role.Tool && m.toolCallId == None && m.toolCalls == []
  }

  lemma {:induction false} PlainKeepsPaired(messages: seq<ChatMessage>, plain: seq<ChatMessage>)
    requires Paired(messages) && forall i | 0 <= i < |plain| :: IsPlainMessage(plain[i])
    ensures Paired(messages + plain)
  {
    if plain == [] {
      assert messages + plain == messages;
    } else {
      var n := |plain| - 1;
      PlainKeepsPaired(messages, plain[..n]);
      PushAwaits(messages + plain[..n], plain[n]);
      assert messages + plain == messages + plain[..n] + [plain[n]];
    }
  }

  // ---------- What pairing means ----------

  /** Message `p` is the tool reply to the call `id`. */
  predicate Replies(m: ChatMessage, id: string) {
    m.role == Role.Tool && m.toolCallId == Some(id)
  }

  /** The place of reply `j` to message `i`: a message of the list, or one still awaited. */
  predicate AnsweredOrAwaited(messages: seq<ChatMessage>, waiting: seq<string>, p: nat, id: string) {
    if p < |messages| then Replies(messages[p], id)
    else p - |messages| < |waiting| && waiting[p - |messages|] == id
  }

  lemma {:induction false} CallsAreAnswered(messages: seq<ChatMessage>, waiting: seq<string>, i: nat, j: nat)
    requires Awaiting(messages) == Some(waiting)
    requires i < |messages| && j < |messages[i].toolCalls|
    ensures AnsweredOrAwaited(messages, waiting, i + 1 + j, messages[i].toolCalls[j].id)
  {
    var n := |messages| - 1;
    var front, last := messages[..n], messages[n];
    var before := Awaiting(front).value;
    if i < n {
      assert front[i] == messages[i];
      CallsAreAnswered(front, before, i, j);
      if i + 1 + j > n {
        assert before[i + 1 + j - n] == waiting[i + 1 + j - |messages|];
      }
    } else {
      assert waiting == CallIds(last.toolCalls);
    }
  }

  /** How far back the calls lie whose remaining replies are `waiting`. */
  lemma {:induction false} RepliesHaveCalls(messages: seq<ChatMessage>, waiting: seq<string>, p: nat)
    returns (i: nat, j: nat)
    requires Awaiting(messages) == Some(waiting)
    requires p < |messages| + |waiting|
    requires p < |messages| ==> messages[p].role == Role.Tool
    ensures i < |messages| && p == i + 1 + j && j < |messages[i].toolCalls|
  {
    var n := |messages| - 1;
    assert messages != [];
    var front, last := messages[..n], messages[n];
    var before := Awaiting(front).value;
    if last.role == Role.Tool {
      i, j := RepliesHaveCalls(front, before, p);
    } else if p < n {
      assert front[p] == messages[p];
      i, j := RepliesHaveCalls(front, before, p);
    } else {
      i, j := n, p - |messages|;
    }
  }

  /** The calls of message `i` are answered by the messages right after it, one each, in order. */
  predicate AnsweredAtOnce(messages: seq<ChatMessage>, i: nat)
    requires i < |messages|
  {
    && i + |messages[i].toolCalls| < |messages|
    && forall j | 0 <= j < |messages[i].toolCalls| :: Replies(messages[i + 1 + j], messages[i].toolCalls[j].id)
  }

  /** Message `p` stands among the replies to the calls of an earlier message. */
  predicate AnswersACall(messages: seq<ChatMessage>, p: nat)
    requires p < |messages|
  {
    exists i | 0 <= i < p :: p - i <= |messages[i].toolCalls|
  }

  /** What pairing promises a provider: every call is answered at once, and no tool message
      stands anywhere else. */
  lemma PairedMeans(messages: seq<ChatMessage>)
    requires Paired(messages)
    ensures forall i | 0 <= i < |messages| :: AnsweredAtOnce(messages, i)
    ensures forall p | 0 <= p < |messages| && messages[p].role == Role.Tool :: AnswersACall(messages, p)
  {
    forall i | 0 <= i < |messages|
      ensures AnsweredAtOnce(messages, i)
    {
      forall j | 0 <= j < |messages[i].toolCalls|
        ensures AnsweredOrAwaited(messages, [], i + 1 + j, messages[i].toolCalls[j].id)
      {
        CallsAreAnswered(messages, [], i, j);
      }
      if messages[i].toolCalls != [] {
        CallsAreAnswered(messages, [], i, |messages[i].toolCalls| - 1);
      }
    }
    forall p | 0 <= p < |messages| && messages[p].role == Role.Tool
      ensures AnswersACall(messages, p)
    {
      var i, j := RepliesHaveCalls(messages, [], p);
    }
  }

  // ---------- Answering what a declined turn leaves open ----------

  function AnsweredIds(messages: seq<ChatMessage>): set<string> {
    if messages == [] then {}
    else
      var id := messages[|messages| - 1].toolCallId;
      AnsweredIds(messages[..|messages| - 1]) + (if id.Some? then {id.value} else {})
  }

  function AllCalls(messages: seq<ChatMessage>): seq<ToolCall> {
    if messages == [] then [] else AllCalls(messages[..|messages| - 1]) + messages[|messages| - 1].toolCalls
  }

  function Unanswered(calls: seq<ToolCall>, answered: set<string>): seq<ToolCall> {
    if calls == [] then []
    else Unanswered(calls[..|calls| - 1], answered)
         + if calls[|calls| - 1].id in answered then [] else [calls[|calls| - 1]]
  }

  /** The reply the application writes when a call does not run. */
  function ToolError(call: ToolCall, message: string): ChatMessage {
    TextMessage(Role.Tool, Untrusted(call.name, "REPAIRABLE TOOL ERROR: " + message)).(toolCallId := Some(call.id))
  }

  function ToolErrors(calls: seq<ToolCall>, message: string): (replies: seq<ChatMessage>)
    ensures |replies| == |calls|
  {
    if calls == [] then []
    else ToolErrors(calls[..|calls| - 1], message) + [ToolError(calls[|calls| - 1], message)]
  }

  /** The calls of a conversation without a reply, as a declined turn computes them. */
  function OpenCalls(messages: seq<ChatMessage>): seq<ToolCall> {
    Unanswered(AllCalls(messages), AnsweredIds(messages))
  }

  lemma {:induction false} PushAnswers(messages: seq<ChatMessage>, m: ChatMessage)
    ensures AnsweredIds(messages + [m])
            == AnsweredIds(messages) + (if m.toolCallId.Some? then {m.toolCallId.value} else {})
    ensures AllCalls(messages + [m]) == AllCalls(messages) + m.toolCalls
  {
    assert (messages + [m])[..|messages|] == messages;
  }

  /** The calls of a conversation are the answered ones, then those it waits for. */
  lemma {:induction false} AwaitingSplits(messages: seq<ChatMessage>, waiting: seq<string>)
    returns (done: seq<ToolCall>, open: seq<ToolCall>)
    requires Awaiting(messages) == Some(waiting)
    ensures AllCalls(messages) == done + open && CallIds(open) == waiting
    ensures forall c | c in done :: c.id in AnsweredIds(messages)
  {
    if messages == [] {
      done, open := [], [];
    } else {
      var n := |messages| - 1;
      var last := messages[n];
      var d, o := AwaitingSplits(messages[..n], Awaiting(messages[..n]).value);
      if last.role == Role.Tool {
        assert CallIds(o)[0] == o[0].id && CallIds(o[1..]) == CallIds(o)[1..];
        done, open := d + [o[0]], o[1..];
        assert d + o == done + open;
      } else {
        assert o == [];
        done, open := d, last.toolCalls;
      }
    }
  }

  lemma {:induction false} UnansweredConcat(a: seq<ToolCall>, b: seq<ToolCall>, answered: set<string>)
    ensures Unanswered(a + b, answered) == Unanswered(a, answered) + Unanswered(b, answered)
  {
    if b == [] {
      assert a + b == a;
    } else {
      assert (a + b)[..|a + b| - 1] == a + b[..|b| - 1];
      UnansweredConcat(a, b[..|b| - 1], answered);
    }
  }

  lemma {:induction false} AllAnswered(calls: seq<ToolCall>, answered: set<string>)
    requires forall c | c in calls :: c.id in answered
    ensures Unanswered(calls, answered) == []
  {
    if calls != [] {
      AllAnswered(calls[..|calls| - 1], answered);
    }
  }

  /** Filtering keeps everything, or gets shorter. */
  lemma {:induction false} UnansweredKeeps(calls: seq<ToolCall>, answered: set<string>)
    ensures if forall i | 0 <= i < |calls| :: calls[i].id !in answered
            then Unanswered(calls, answered) == calls
            else |Unanswered(calls, answered)| < |calls|
    ensures |Unanswered(calls, answered)| <= |calls|
  {
    if calls != [] {
      UnansweredKeeps(calls[..|calls| - 1], answered);
    }
  }

  lemma ErrorAwaits(waiting: seq<string>, call: ToolCall, message: string)
    ensures AwaitAfter(waiting, ToolError(call, message))
            == if waiting != [] && waiting[0] == call.id then Some(waiting[1..]) else None
  {
  }

  lemma PrefixGrows(ids: seq<string>, id: string, waiting: seq<string>)
    ensures ids + [id] <= waiting <==> ids <= waiting && |ids| < |waiting| && waiting[|ids|] == id
  {
    if ids <= waiting && |ids| < |waiting| && waiting[|ids|] == id {
      assert waiting[..|ids| + 1] == ids + [id];
    }
    if ids + [id] <= waiting {
      assert waiting[|ids|] == (ids + [id])[|ids|];
    }
  }

  /** Replies written in a row consume the awaited ids in order. */
  lemma {:induction false} ErrorsConsume(messages: seq<ChatMessage>, waiting: seq<string>, calls: seq<ToolCall>,
                                         message: string)
    requires Awaiting(messages) == Some(waiting)
    ensures Awaiting(messages + ToolErrors(calls, message))
            == if CallIds(calls) <= waiting then Some(waiting[|calls|..]) else None
  {
    if calls == [] {
      assert messages + ToolErrors(calls, message) == messages;
    } else {
      var n := |calls| - 1;
      var before, reply := messages + ToolErrors(calls[..n], message), ToolError(calls[n], message);
      ErrorsConsume(messages, waiting, calls[..n], message);
      PushAwaits(before, reply);
      assert messages + ToolErrors(calls, message) == before + [reply];
      assert CallIds(calls) == CallIds(calls[..n]) + [calls[n].id];
      PrefixGrows(CallIds(calls[..n]), calls[n].id, waiting);
      if CallIds(calls[..n]) <= waiting {
        ErrorAwaits(waiting[n..], calls[n], message);
      }
    }
  }

  /** The open calls are the awaited ones that have no reply yet. */
  lemma OpenCallsOf(messages: seq<ChatMessage>, waiting: seq<string>) returns (open: seq<ToolCall>)
    requires Awaiting(messages) == Some(waiting)
    ensures CallIds(open) == waiting && OpenCalls(messages) == Unanswered(open, AnsweredIds(messages))
  {
    var done;
    done, open := AwaitingSplits(messages, waiting);
    UnansweredConcat(done, open, AnsweredIds(messages));
    AllAnswered(done, AnsweredIds(messages));
  }

  lemma OpenCallsAreAwaited(messages: seq<ChatMessage>, waiting: seq<string>)
    requires Awaiting(messages) == Some(waiting)
    ensures |OpenCalls(messages)| <= |waiting|
    ensures (|OpenCalls(messages)| == |waiting|)
            <==> forall i | 0 <= i < |waiting| :: waiting[i] !in AnsweredIds(messages)
    ensures |OpenCalls(messages)| == |waiting| ==> CallIds(OpenCalls(messages)) == waiting
  {
    var open := OpenCallsOf(messages, waiting);
    UnansweredKeeps(open, AnsweredIds(messages));
    assert |open| == |CallIds(open)| && forall i | 0 <= i < |open| :: waiting[i] == open[i].id;
  }

  /**
   A declined turn answers every open call; the result is paired exactly when no awaited id was
   already answered earlier in the conversation.
   */
  lemma DeclinedPairsExactly(messages: seq<ChatMessage>, waiting: seq<string>, message: string)
    requires Awaiting(messages) == Some(waiting)
    ensures Paired(messages + ToolErrors(OpenCalls(messages), message))
            <==> forall i | 0 <= i < |waiting| :: waiting[i] !in AnsweredIds(messages)
  {
    OpenCallsAreAwaited(messages, waiting);
    var open := OpenCalls(messages);
    ErrorsConsume(messages, waiting, open, message);
    assert |waiting[|open|..]| == |waiting| - |open|;
    if |open| == |waiting| {
      assert CallIds(open) <= waiting && waiting[|open|..] == [];
    }
  }

  /** A call, its reply, and later a call under the same id, whatever the tool. */
  function ReusedId(call: ToolCall): seq<ChatMessage> {
    var asking := TextMessage(Assistant, "").(toolCalls := [call]);
    [asking, ToolError(call, ""), asking]
  }

  /** Such a list waits for the second reply, and declining the turn leaves it unpaired. */
  lemma DeclinedReuseStaysOpen(call: ToolCall, message: string)
    ensures Awaiting(ReusedId(call)) == Some([call.id])
    ensures !Paired(ReusedId(call) + ToolErrors(OpenCalls(ReusedId(call)), message))
  {
    var all := ReusedId(call);
    assert CallIds([call]) == [call.id];
    PushAwaits([], all[0]);
    PushAwaits([all[0]], all[1]);
    PushAwaits([all[0], all[1]], all[2]);
    PushAnswers([all[0]], all[1]);
    PushAnswers([all[0], all[1]], all[2]);
    assert [] + [all[0]] == [all[0]] && [all[0]] + [all[1]] == [all[0], all[1]] && [all[0], all[1]] + [all[2]] == all;
    DeclinedPairsExactly(all, [call.id], message);
  }
}
