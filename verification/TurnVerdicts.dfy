/**
 How a turn ends, read off its script: which step is the last, with what verdict, and how many
 requests were sent by then.
 */
module TurnVerdicts {
  import opened Prelude
  import opened Vocabulary
  import opened Chat
  import opened Approvals
  import opened AgentLoop
  import opened TurnContents

  // ---------- A batch of calls ----------

  function Written(call: ToolCall): string {
    call.name + ":" + call.arguments
  }

  /** The call before position `k` that was not passed over for new instructions. */
  function Previous(calls: seq<ScriptedCall>, last: Option<string>, k: nat): Option<string>
    requires k <= |calls|
  {
    if k == 0 then last
    else if calls[k - 1].steered then Previous(calls, last, k - 1)
    else Some(Written(calls[k - 1].call))
  }

  predicate Dismisses(r: ToolResult) {
    r.question.Some? && r.question.value.answer.Dismissed?
  }

  /** Why a call ends its turn: it repeats the one before, the user declined it or left, or a
      question was dismissed. */
  function CallStop(s: ScriptedCall, last: Option<string>): Option<Error> {
    if s.steered then None
    else if last == Some(Written(s.call)) then Some(Error.Tool)
    else if s.malformed.Some? then None
    else match AuthorizeOf(s.authorization).1
      case Err(error) => if error == ApprovalDeclined || error == Cancelled then Some(Cancelled) else None
      case Ok(_) => if Dismisses(s.result) then Some(Cancelled) else None
  }

  function StopAt(calls: seq<ScriptedCall>, last: Option<string>, k: nat): Option<Error>
    requires k < |calls|
  {
    CallStop(calls[k], Previous(calls, last, k))
  }

  /** The first `n` calls do not end the turn. */
  predicate PassesTo(calls: seq<ScriptedCall>, last: Option<string>, n: nat)
    requires n <= |calls|
  {
    forall k | 0 <= k < n :: StopAt(calls, last, k).None?
  }

  /** Call `k` is the first that ends the turn. */
  predicate FirstStop(calls: seq<ScriptedCall>, last: Option<string>, k: nat) {
    k < |calls| && PassesTo(calls, last, k) && StopAt(calls, last, k).Some?
  }

  lemma CallStops(t: Turn, turn: TurnId, s: ScriptedCall)
    requires t.verdict == Going
    ensures var u := Calling(t, turn, s);
            match CallStop(s, t.lastCall)
            case Some(error) => u.verdict == Failed(error)
            case None => u.verdict == Going && u.lastCall == if s.steered then t.lastCall else Some(Written(s.call))
  {
    assert Written(s.call) == Signature(s.call);
  }

  lemma {:induction false} PreviousShifts(calls: seq<ScriptedCall>, last: Option<string>, k: nat)
    requires k < |calls|
    ensures Previous(calls, last, k + 1) == Previous(calls[1..], Previous(calls, last, 1), k)
  {
    if k > 0 {
      PreviousShifts(calls, last, k - 1);
    }
  }

  lemma StopShifts(calls: seq<ScriptedCall>, last: Option<string>, k: nat)
    requires k + 1 < |calls|
    ensures StopAt(calls, last, k + 1) == StopAt(calls[1..], Previous(calls, last, 1), k)
  {
    PreviousShifts(calls, last, k);
  }

  lemma PassShifts(calls: seq<ScriptedCall>, last: Option<string>, n: nat)
    requires n < |calls| && CallStop(calls[0], last).None?
    requires PassesTo(calls[1..], Previous(calls, last, 1), n)
    ensures PassesTo(calls, last, n + 1)
  {
    forall k | 0 <= k < n + 1
      ensures StopAt(calls, last, k).None?
    {
      if k > 0 {
        StopShifts(calls, last, k - 1);
      }
    }
  }

  /** The batch ended with what the first of its calls that ends the turn says. */
  ghost predicate StoppedWith(calls: seq<ScriptedCall>, last: Option<string>, v: Verdict) {
    exists k: nat :: FirstStop(calls, last, k) && v == Failed(StopAt(calls, last, k).value)
  }

  lemma StopsLater(calls: seq<ScriptedCall>, last: Option<string>, v: Verdict)
    requires calls != [] && CallStop(calls[0], last).None?
    requires StoppedWith(calls[1..], Previous(calls, last, 1), v)
    ensures StoppedWith(calls, last, v)
  {
    var rest, next := calls[1..], Previous(calls, last, 1);
    var k: nat :| FirstStop(rest, next, k) && v == Failed(StopAt(rest, next, k).value);
    PassShifts(calls, last, k);
    StopShifts(calls, last, k);
    assert FirstStop(calls, last, k + 1);
  }

  lemma StopsAtOnce(calls: seq<ScriptedCall>, last: Option<string>)
    requires calls != [] && CallStop(calls[0], last).Some?
    ensures StoppedWith(calls, last, Failed(CallStop(calls[0], last).value))
  {
    assert FirstStop(calls, last, 0);
  }

  lemma PassesOn(calls: seq<ScriptedCall>, last: Option<string>)
    requires calls != [] && CallStop(calls[0], last).None?
    requires PassesTo(calls[1..], Previous(calls, last, 1), |calls| - 1)
    ensures PassesTo(calls, last, |calls|)
    ensures Previous(calls, last, |calls|) == Previous(calls[1..], Previous(calls, last, 1), |calls| - 1)
  {
    PassShifts(calls, last, |calls| - 1);
    PreviousShifts(calls, last, |calls| - 1);
  }

  /** A batch goes on past all its calls, and the last that was not passed over is remembered; or
      it ends with what the first that ends the turn says. */
  ghost predicate BatchEnds(calls: seq<ScriptedCall>, last: Option<string>, u: Turn) {
    if u.verdict == Going then PassesTo(calls, last, |calls|) && u.lastCall == Previous(calls, last, |calls|)
    else StoppedWith(calls, last, u.verdict)
  }

  lemma CallTaken(t: Turn, turn: TurnId, calls: seq<ScriptedCall>)
    requires calls != [] && t.verdict == Going
    ensures var v := Calling(t, turn, calls[0]);
            && CallingAll(t, turn, calls) == CallingAll(v, turn, calls[1..])
            && (v.verdict != Going ==> CallingAll(t, turn, calls) == v)
  {
  }

  lemma {:induction false} BatchEndsExactly(t: Turn, turn: TurnId, calls: seq<ScriptedCall>)
    requires t.verdict == Going
    ensures BatchEnds(calls, t.lastCall, CallingAll(t, turn, calls))
    decreases |calls|
  {
    if calls != [] {
      var v, last := Calling(t, turn, calls[0]), t.lastCall;
      CallTaken(t, turn, calls);
      CallStops(t, turn, calls[0]);
      if v.verdict != Going {
        StopsAtOnce(calls, last);
      } else {
        assert Previous(calls, last, 0) == last && v.lastCall == Previous(calls, last, 1);
        BatchEndsExactly(v, turn, calls[1..]);
        if CallingAll(v, turn, calls[1..]).verdict == Going {
          PassesOn(calls, last);
        } else {
          StopsLater(calls, last, CallingAll(v, turn, calls[1..]).verdict);
        }
      }
    }
  }

  /** Of a batch without a stop none is found, so it goes on exactly when every call passes. */
  lemma BatchGoesOnExactly(t: Turn, turn: TurnId, calls: seq<ScriptedCall>)
    requires t.verdict == Going
    ensures CallingAll(t, turn, calls).verdict == Going <==> PassesTo(calls, t.lastCall, |calls|)
  {
    BatchEndsExactly(t, turn, calls);
  }

  // ---------- A step ----------

  function CallsIn(s: Step): seq<ScriptedCall> {
    if s.reply.Says? then s.reply.calls else []
  }

  /** The call remembered when step `i` begins, and when its reply comes: new instructions clear it. */
  function Remembered(steps: seq<Step>, i: nat): Option<string>
    requires i <= |steps|
    decreases i, 0
  {
    if i == 0 then None
    else Previous(CallsIn(steps[i - 1]), AtReply(steps, i - 1), |CallsIn(steps[i - 1])|)
  }

  function AtReply(steps: seq<Step>, i: nat): Option<string>
    requires i < |steps|
    decreases i, 1
  {
    if steps[i].steering != [] then None else Remembered(steps, i)
  }

  /** Why a step ends the turn before its request; the first request needs no compaction. */
  function Halts(s: Step, first: bool): Option<Error> {
    if s.halt.Some? then s.halt
    else if !first && s.compacting.CompactionFails? then Some(s.compacting.error)
    else s.overBudget
  }

  /** A reply without calls completes the turn, unless input has come or a compaction was
      cancelled; with calls it goes on unless one of them ends it. */
  predicate Closes(c: Closing, v: Verdict) {
    if c.pendingBefore then v == Going
    else if c.compacting.CompactionFails? && c.compacting.error == Cancelled then v == Failed(Cancelled)
    else v == if c.pendingAfter then Going else Completed
  }

  ghost predicate ReplyEnds(r: ModelReply, last: Option<string>, v: Verdict) {
    match r
    case ProviderFails(_, _, error) => v == Failed(error)
    case Says(_, _, _, calls, closing) =>
      if calls == [] then Closes(closing, v)
      else if PassesTo(calls, last, |calls|) then v == Going
      else StoppedWith(calls, last, v)
  }

  /** The verdict of step `i`. */
  ghost predicate StepEnds(steps: seq<Step>, i: nat, v: Verdict)
    requires i < |steps|
  {
    match Halts(steps[i], i == 0)
    case Some(error) => v == Failed(error)
    case None => ReplyEnds(steps[i].reply, AtReply(steps, i), v)
  }

  lemma ClosingEnds(t: Turn, turn: TurnId, c: Closing)
    requires t.verdict == Going && |t.messages| > 1
    ensures var u := ClosedBy(t, turn, c);
            Closes(c, u.verdict) && u.requests == t.requests && |u.messages| > 1 && u.lastCall == t.lastCall
  {
  }

  lemma RepliedEnds(t: Turn, turn: TurnId, r: ModelReply)
    requires t.verdict == Going && t.messages != []
    ensures var u := Replied(t, turn, r);
            && ReplyEnds(r, t.lastCall, u.verdict) && u.requests == t.requests
            && (u.verdict == Going ==>
                  && |u.messages| > 1 && r.Says? && u.lastCall == Previous(r.calls, t.lastCall, |r.calls|))
  {
    match r
    case ProviderFails(_, _, _) =>
    case Says(_, _, _, calls, closing) =>
      var said := Pushing(Emitting(t, r.stream), [SaidMessage(r)]);
      if calls == [] {
        ClosingEnds(said, turn, closing);
      } else {
        var calling := said.(observations := [], imageCount := CountImages(said.messages));
        BatchEndsExactly(calling, turn, calls);
        BatchGoesOnExactly(calling, turn, calls);
        BatchTells(calling, turn, calls);
      }
  }

  /** The turn has taken the first `i` steps and goes on. */
  predicate Reached(steps: seq<Step>, i: nat, t: Turn)
    requires i <= |steps|
  {
    && t.verdict == Going && |t.requests| == i && t.messages != [] && (i > 0 ==> |t.messages| > 1)
    && t.lastCall == Remembered(steps, i)
  }

  lemma HaltingEnds(t: Turn, turn: TurnId, s: Step)
    requires t.verdict == Going && (t.requests != [] ==> |t.messages| > 1)
    requires Halts(s, t.requests == []).Some?
    ensures var u := Stepping(t, turn, s);
            u.verdict == Failed(Halts(s, t.requests == []).value) && u.requests == t.requests
  {
  }

  /** The turn as it sends its next request. */
  function Sending(t: Turn, turn: TurnId, s: Step): Turn {
    var steered := Steered(MidTurn(t, s.compacting), turn, s.steering);
    steered.(requests := steered.requests + [steered.messages])
  }

  lemma SendingTells(t: Turn, turn: TurnId, s: Step)
    requires t.verdict == Going && t.messages != [] && Halts(s, t.requests == []).None?
    ensures var u := Sending(t, turn, s);
            && Stepping(t, turn, s) == Replied(u, turn, s.reply)
            && u.verdict == Going && u.messages != [] && |u.requests| == |t.requests| + 1
            && u.lastCall == if s.steering != [] then None else t.lastCall
  {
    CompactedTells(t, s.compacting);
    SteeredTells(MidTurn(t, s.compacting), turn, s.steering);
  }

  lemma StepEndsExactly(steps: seq<Step>, i: nat, t: Turn, turn: TurnId)
    requires i < |steps| && Reached(steps, i, t)
    ensures var u := Stepping(t, turn, steps[i]);
            && StepEnds(steps, i, u.verdict)
            && |u.requests| == (if Halts(steps[i], i == 0).Some? then i else i + 1)
            && (u.verdict == Going ==> Reached(steps, i + 1, u))
  {
    if Halts(steps[i], i == 0).Some? {
      HaltingEnds(t, turn, steps[i]);
    } else {
      SendingTells(t, turn, steps[i]);
      RepliedEnds(Sending(t, turn, steps[i]), turn, steps[i].reply);
    }
  }

  // ---------- The turn ----------

  /** Step `n` is the first that ends the turn, with this verdict; or none does. */
  ghost predicate EndsAt(steps: seq<Step>, n: nat, v: Verdict) {
    && n <= |steps|
    && (forall i | 0 <= i < n :: StepEnds(steps, i, Going))
    && if n == |steps| then v == Going else v != Going && StepEnds(steps, n, v)
  }

  function RequestsBy(steps: seq<Step>, n: nat): nat
    requires n <= |steps|
  {
    if n < |steps| && Halts(steps[n], n == 0).None? then n + 1 else n
  }

  /** What a turn that ended after `n` steps has come to. */
  ghost predicate EndedBy(steps: seq<Step>, u: Turn) {
    exists n: nat :: EndsAt(steps, n, u.verdict) && |u.requests| == RequestsBy(steps, n)
  }

  /** The turn goes on after `i` steps, none of which ends it. */
  ghost predicate Alive(steps: seq<Step>, i: nat, t: Turn) {
    i <= |steps| && Reached(steps, i, t) && forall j | 0 <= j < i :: StepEnds(steps, j, Going)
  }

  lemma AliveToTheEnd(steps: seq<Step>, t: Turn)
    requires Alive(steps, |steps|, t)
    ensures EndedBy(steps, t)
  {
    assert EndsAt(steps, |steps|, Going);
  }

  lemma OneStepOn(steps: seq<Step>, i: nat, t: Turn, turn: TurnId)
    requires i < |steps| && Alive(steps, i, t)
    ensures var u := Stepping(t, turn, steps[i]);
            if u.verdict == Going then Alive(steps, i + 1, u) else EndedBy(steps, u)
  {
    var u := Stepping(t, turn, steps[i]);
    StepEndsExactly(steps, i, t, turn);
    assert u.verdict != Going ==> EndsAt(steps, i, u.verdict);
  }

  lemma StepTaken(steps: seq<Step>, i: nat, t: Turn, turn: TurnId)
    requires i < |steps| && t.verdict == Going
    ensures var u := Stepping(t, turn, steps[i]);
            && SteppingAll(t, turn, steps[i..]) == SteppingAll(u, turn, steps[i + 1..])
            && (u.verdict != Going ==> SteppingAll(t, turn, steps[i..]) == u)
  {
    assert steps[i..][0] == steps[i] && steps[i..][1..] == steps[i + 1..];
  }

  lemma {:induction false} StepsEndExactly(steps: seq<Step>, i: nat, t: Turn, turn: TurnId)
    requires i <= |steps| && Alive(steps, i, t)
    ensures EndedBy(steps, SteppingAll(t, turn, steps[i..]))
    decreases |steps| - i
  {
    if i == |steps| {
      AliveToTheEnd(steps, t);
    } else {
      StepTaken(steps, i, t, turn);
      OneStepOn(steps, i, t, turn);
      var u := Stepping(t, turn, steps[i]);
      if u.verdict == Going {
        StepsEndExactly(steps, i + 1, u, turn);
      }
    }
  }

  /**
   For every script a turn ends at the first of its steps that ends it, with the verdict of that
   step, and one request was sent for each step up to there. A turn that could not compact its
   history before it began sends nothing.
   */
  lemma TurnEndsExactly(history: seq<ChatMessage>, prompt: ChatMessage, turn: TurnId, c: Compacting, steps: seq<Step>)
    ensures var t := TurnOf(history, prompt, turn, c, steps);
            if |history| > 1 && c.CompactionFails? then t.verdict == Failed(c.error) && t.requests == []
            else EndedBy(steps, t)
  {
    var t := Opening(history, prompt, c);
    assert steps[0..] == steps;
    if t.verdict == Going {
      StepsEndExactly(steps, 0, t, turn);
    }
  }

  /** A turn completes only at its last request, with a reply without calls and no input left. */
  lemma CompletionMeans(history: seq<ChatMessage>, prompt: ChatMessage, turn: TurnId, c: Compacting, steps: seq<Step>)
    requires TurnOf(history, prompt, turn, c, steps).verdict == Completed
    ensures var n := |TurnOf(history, prompt, turn, c, steps).requests|;
            && 0 < n <= |steps| && steps[n - 1].halt.None? && steps[n - 1].overBudget.None?
            && steps[n - 1].reply.Says? && steps[n - 1].reply.calls == []
            && !steps[n - 1].reply.closing.pendingBefore && !steps[n - 1].reply.closing.pendingAfter
  {
    TurnEndsExactly(history, prompt, turn, c, steps);
    var t := TurnOf(history, prompt, turn, c, steps);
    var n: nat :| EndsAt(steps, n, t.verdict) && |t.requests| == RequestsBy(steps, n);
  }

  /** Two calls in a row that are written alike are never both taken. */
  lemma RepeatedCallStops(t: Turn, turn: TurnId, calls: seq<ScriptedCall>, k: nat)
    requires t.verdict == Going && k + 1 < |calls| && !calls[k].steered && !calls[k + 1].steered
    requires Written(calls[k].call) == Written(calls[k + 1].call)
    ensures CallingAll(t, turn, calls).verdict.Failed?
  {
    assert StopAt(calls, t.lastCall, k + 1) == Some(Error.Tool);
    BatchEndsExactly(t, turn, calls);
  }
}
