/**
 How the end of a turn shows in the restored conversation: a turn that was cancelled or failed
 leaves the interruption note, a completed one leaves nothing.
 */
module TurnEndings {
  import opened Prelude
  import opened Vocabulary
  import opened KernelModel
  import opened Chat
  import opened History

  predicate EndsTurn(c: AppCommand) {
    c.CancelTurn? || c.FinishTurn? || c.FailTurn?
  }

  /** What a turn that did not complete leaves in the conversation. */
  const NOTE := ChatMessage(System, "[INTERRUPTED TURN]", [], [], None, None, [])

  /** The one event that ends a turn tells how. */
  lemma OneEnding(s: SessionState, c: AppCommand) returns (e: AppEvent)
    requires EndsTurn(c) && SessionStep(Some(s), c).Ok?
    ensures SessionStep(Some(s), c).value.1 == [e] && TerminalTurn(e) == Some(c.turnId)
    ensures e.TurnCompleted? <==> c.FinishTurn?
    ensures e.TurnCancelled? <==> c.CancelTurn?
    ensures e.ErrorRaised? <==> c.FailTurn?
  {
    TakenCommandTells(Some(s), c);
    var events := SessionStep(Some(s), c).value.1;
    e := events[0];
    assert events == [e];
    assert TurnCancelled(c.turnId) in events || TurnCompleted(c.turnId) in events
           || (c.FailTurn? && ErrorRaised(Some(c.turnId), c.message) in events);
  }

  /**
   Replaying the end of a turn adds the interruption note, and only that, exactly when the turn
   was cancelled or failed; the turn is active no more.
   */
  lemma EndingIsNoted(images: Images, before: seq<AppEvent>, s: SessionState, c: AppCommand)
    requires EndsTurn(c) && SessionStep(Some(s), c).Ok? && Steps(START, images, before).Ok?
    ensures var r := Steps(START, images, before).value;
            var ended := Steps(START, images, before + SessionStep(Some(s), c).value.1);
            && ended.Ok? && ended.value.activeTurns == r.activeTurns - {c.turnId}
            && ended.value.messages == r.messages + if c.FinishTurn? then [] else [NOTE]
  {
    var r := Steps(START, images, before).value;
    var e := OneEnding(s, c);
    StepsConcat(START, images, before, [e]);
    assert [e][1..] == [] && Steps(Step(r, images, e).value, images, []) == Step(r, images, e);
    assert r.messages + [] == r.messages;
  }

  /**
   A restart right after the end of a turn, with nothing else under way: the restored conversation
   ends in the interruption note if and only if the turn was cancelled or failed, unless it
   already did before.
   */
  lemma RestoredEndsInterrupted(images: Images, before: seq<AppEvent>, s: SessionState, c: AppCommand, system: string)
    requires EndsTurn(c) && SessionStep(Some(s), c).Ok? && Steps(START, images, before).Ok?
    requires var r := Steps(START, images, before).value;
             && r.activeTurns <= {c.turnId} && r.activeTools == {}
             && |r.messages| > 1 && r.messages[|r.messages| - 1] != NOTE
    ensures var restored := Restored(images, before + SessionStep(Some(s), c).value.1, system);
            && restored.Ok? && restored.value != []
            && (restored.value[|restored.value| - 1] == NOTE <==> c.CancelTurn? || c.FailTurn?)
  {
    var r := Steps(START, images, before).value;
    EndingIsNoted(images, before, s, c);
    var e := OneEnding(s, c);
    StepsConcat(START, images, before, [e]);
    var ended := Steps(START, images, before + [e]).value;
    assert [e][1..] == [] && Step(r, images, e) == Ok(ended);
    assert ended.activeTurns == {} && ended.activeTools == {};
    var titled := ended.messages[0 := TextMessage(System, system)];
    assert titled + [] == titled;
  }
}
