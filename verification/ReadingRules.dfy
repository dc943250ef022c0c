/**
 What it means that a journal reads well, said about the events themselves: since the last
 compaction the outputs name the proposed calls in order, each behind its proposal, and whenever
 something else is said no call is open.
 */
module ReadingRules {
  import opened Prelude
  import opened Vocabulary
  import opened History
  import opened Readings

  /** The ids proposed, in order. */
  function Proposals(events: seq<AppEvent>): seq<string> {
    if events == [] then []
    else
      var e := events[|events| - 1];
      Proposals(events[..|events| - 1]) + if e.ToolProposed? then [e.callId] else []
  }

  /** The ids that got an output, in order. */
  function Outputs(events: seq<AppEvent>): seq<string> {
    if events == [] then []
    else
      var e := events[|events| - 1];
      Outputs(events[..|events| - 1]) + if e.ToolOutput? then [e.callId] else []
  }

  /** A call of the image viewer was proposed under this id and has not completed since. */
  predicate Viewing(events: seq<AppEvent>, id: string) {
    exists i | 0 <= i < |events| && events[i].ToolProposed? && events[i].callId == id && events[i].name == VIEW_IMAGE ::
      forall j | i < j < |events| :: !(events[j].ToolCompleted? && events[j].callId == id)
  }

  predicate IsStreamed(e: AppEvent) {
    e.TextDelta? || e.ReasoningDelta?
  }

  /** Event `n` adds a message that answers no call. */
  predicate Interrupts(events: seq<AppEvent>, n: nat)
    requires n < |events|
  {
    var e := events[n];
    || IsStreamed(e) || e.PromptAccepted? || e.SteeringApplied? || e.TurnCancelled?
    || (e.ErrorRaised? && e.failedTurn.Some?)
    || (e.ToolCompleted? && e.success && Viewing(events[..n], e.callId))
  }

  /** The assistant was the last to say something. */
  predicate Speaking(events: seq<AppEvent>) {
    exists i | 0 <= i < |events| && (IsStreamed(events[i]) || events[i].ToolProposed?) ::
      forall j | i < j < |events| :: !events[j].ToolOutput? && (Interrupts(events, j) ==> IsStreamed(events[j]))
  }

  /** Event `n` may come only when no call is open: a call joins the open ones only while the
      assistant is still speaking. */
  predicate NeedsClosed(events: seq<AppEvent>, n: nat)
    requires n < |events|
  {
    Interrupts(events, n) || (events[n].ToolProposed? && !Speaking(events[..n]))
  }

  /** The first `n` events answer their calls in order, each behind its proposal. */
  predicate OutputsFollow(events: seq<AppEvent>, n: nat)
    requires n <= |events|
  {
    Outputs(events[..n]) <= Proposals(events[..n])
  }

  predicate ClosedWhereNeeded(events: seq<AppEvent>, n: nat)
    requires n < |events|
  {
    NeedsClosed(events, n) ==> Outputs(events[..n]) == Proposals(events[..n])
  }

  predicate InOrder(events: seq<AppEvent>) {
    && (forall n | 0 <= n <= |events| :: OutputsFollow(events, n))
    && (forall n | 0 <= n < |events| :: ClosedWhereNeeded(events, n))
  }

  /** The calls proposed and not answered, when everything came in order. */
  function Open(events: seq<AppEvent>): Option<seq<string>> {
    if InOrder(events) && Outputs(events) <= Proposals(events)
    then Some(Proposals(events)[|Outputs(events)|..]) else None
  }

  lemma InOrderFollows(events: seq<AppEvent>)
    requires InOrder(events)
    ensures Outputs(events) <= Proposals(events)
  {
    assert OutputsFollow(events, |events|) && events[..|events|] == events;
  }

  // ---------- One more event ----------

  lemma SameBefore(events: seq<AppEvent>, e: AppEvent, n: nat)
    requires n < |events|
    ensures (events + [e])[n] == events[n] && (events + [e])[..n] == events[..n]
    ensures Interrupts(events + [e], n) <==> Interrupts(events, n)
    ensures OutputsFollow(events + [e], n) <==> OutputsFollow(events, n)
    ensures ClosedWhereNeeded(events + [e], n) <==> ClosedWhereNeeded(events, n)
  {
    assert (events + [e])[..n] == events[..n];
  }

  lemma ViewingAfter(events: seq<AppEvent>, e: AppEvent, id: string)
    ensures Viewing(events + [e], id)
            <==> || (e.ToolProposed? && e.callId == id && e.name == VIEW_IMAGE)
                 || (Viewing(events, id) && !(e.ToolCompleted? && e.callId == id))
  {
    var all, n := events + [e], |events|;
    assert all[n] == e;
    if Viewing(events, id) && !(e.ToolCompleted? && e.callId == id) {
      var i :| 0 <= i < n && events[i].ToolProposed? && events[i].callId == id && events[i].name == VIEW_IMAGE
               && forall j | i < j < n :: !(events[j].ToolCompleted? && events[j].callId == id);
      assert all[i] == events[i] && forall j | i < j < n :: all[j] == events[j];
    }
    if Viewing(all, id) && !(e.ToolProposed? && e.callId == id && e.name == VIEW_IMAGE) {
      var i :| 0 <= i <= n && all[i].ToolProposed? && all[i].callId == id && all[i].name == VIEW_IMAGE
               && forall j | i < j <= n :: !(all[j].ToolCompleted? && all[j].callId == id);
      assert all[i] == events[i] && forall j | i < j < n :: all[j] == events[j];
    }
  }

  lemma SpeakingAfter(events: seq<AppEvent>, e: AppEvent)
    ensures var all, n := events + [e], |events|;
            Speaking(all)
            <==> || IsStreamed(e) || e.ToolProposed?
                 || (Speaking(events) && !e.ToolOutput? && !Interrupts(all, n))
  {
    var all, n := events + [e], |events|;
    assert all[n] == e;
    forall j | 0 <= j < n
      ensures all[j] == events[j] && (Interrupts(all, j) <==> Interrupts(events, j))
    {
      SameBefore(events, e, j);
    }
    if Speaking(events) && !e.ToolOutput? && !Interrupts(all, n) {
      var i :| 0 <= i < n && (IsStreamed(events[i]) || events[i].ToolProposed?)
               && forall j | i < j < n ::
                    !events[j].ToolOutput? && (Interrupts(events, j) ==> IsStreamed(events[j]));
      assert IsStreamed(all[i]) || all[i].ToolProposed?;
    }
    if Speaking(all) && !IsStreamed(e) && !e.ToolProposed? {
      var i :| 0 <= i <= n && (IsStreamed(all[i]) || all[i].ToolProposed?)
               && forall j | i < j <= n :: !all[j].ToolOutput? && (Interrupts(all, j) ==> IsStreamed(all[j]));
      assert IsStreamed(events[i]) || events[i].ToolProposed?;
    }
  }

  lemma InOrderAfter(events: seq<AppEvent>, e: AppEvent)
    ensures var all, n := events + [e], |events|;
            InOrder(all) <==> InOrder(events) && OutputsFollow(all, n + 1) && ClosedWhereNeeded(all, n)
  {
    var all, n := events + [e], |events|;
    assert all[..n] == events && events[..n] == events;
    forall k | 0 <= k < n
      ensures OutputsFollow(all, k) <==> OutputsFollow(events, k)
      ensures ClosedWhereNeeded(all, k) <==> ClosedWhereNeeded(events, k)
    {
      SameBefore(events, e, k);
    }
    assert OutputsFollow(all, n) <==> OutputsFollow(events, n);
  }

  // ---------- The reading ----------

  /** What the reading is, in terms of the events. */
  ghost predicate Reflects(s: Reading, events: seq<AppEvent>) {
    && s.waiting == Open(events)
    && (s.speaking <==> Speaking(events))
    && (forall id :: id in s.viewed <==> Viewing(events, id))
  }

  lemma OneMore(events: seq<AppEvent>, e: AppEvent)
    ensures Proposals(events + [e]) == Proposals(events) + if e.ToolProposed? then [e.callId] else []
    ensures Outputs(events + [e]) == Outputs(events) + if e.ToolOutput? then [e.callId] else []
  {
    assert (events + [e])[..|events|] == events;
  }

  /** Taking the next output from what waits. */
  lemma TakesOutput(outputs: seq<string>, proposals: seq<string>, id: string)
    requires outputs <= proposals
    ensures outputs + [id] <= proposals
            <==> proposals[|outputs|..] != [] && proposals[|outputs|..][0] == id
    ensures outputs + [id] <= proposals ==> proposals[|outputs| + 1..] == proposals[|outputs|..][1..]
    ensures outputs == proposals <==> proposals[|outputs|..] == []
  {
    if |outputs| < |proposals| && proposals[|outputs|] == id {
      assert proposals[..|outputs| + 1] == outputs + [id];
    }
    if outputs + [id] <= proposals {
      assert proposals[|outputs|] == (outputs + [id])[|outputs|];
    }
  }

  /** One event on what waits: an output takes the first call, anything else needs none open,
      except a call of an assistant that is still speaking. */
  lemma OpenAfter(events: seq<AppEvent>, e: AppEvent)
    ensures Open(events + [e])
            == match Open(events)
               case None => None
               case Some(waiting) =>
                 if e.ToolOutput? then (if waiting != [] && waiting[0] == e.callId then Some(waiting[1..]) else None)
                 else if NeedsClosed(events + [e], |events|) && waiting != [] then None
                 else if e.ToolProposed? then Some(waiting + [e.callId])
                 else Some(waiting)
  {
    var all, n := events + [e], |events|;
    var outputs, proposals := Outputs(events), Proposals(events);
    OneMore(events, e);
    InOrderAfter(events, e);
    assert all[..n] == events && all[..n + 1] == all && all[n] == e;
    if InOrder(events) {
      InOrderFollows(events);
      TakesOutput(outputs, proposals, if e.ToolOutput? then e.callId else "");
      assert outputs + [] == outputs && proposals + [] == proposals;
      if e.ToolProposed? {
        assert (proposals + [e.callId])[..|outputs|] == proposals[..|outputs|];
        assert (proposals + [e.callId])[|outputs|..] == proposals[|outputs|..] + [e.callId];
      }
    }
  }

  lemma ReadReflects(s: Reading, events: seq<AppEvent>, e: AppEvent)
    requires Reflects(s, events) && !e.ContextCompacted?
    ensures Reflects(Read(s, e), events + [e])
  {
    OpenAfter(events, e);
    SpeakingAfter(events, e);
    assert (events + [e])[..|events|] == events && (events + [e])[|events|] == e;
    forall id
      ensures id in Read(s, e).viewed <==> Viewing(events + [e], id)
    {
      ViewingAfter(events, e, id);
    }
  }

  lemma {:induction false} ReadingReflects(events: seq<AppEvent>)
    requires forall i | 0 <= i < |events| :: !events[i].ContextCompacted?
    ensures Reflects(ReadAll(NOTHING_READ, events), events)
  {
    if events != [] {
      var n := |events| - 1;
      ReadingReflects(events[..n]);
      assert events[..n] + [events[n]] == events && [events[n]][1..] == [];
      ReadConcat(NOTHING_READ, events[..n], [events[n]]);
      ReadReflects(ReadAll(NOTHING_READ, events[..n]), events[..n], events[n]);
    }
  }

  // ---------- Main result ----------

  /** The events after the last compaction. */
  function SinceCompaction(events: seq<AppEvent>): seq<AppEvent> {
    if events == [] || events[|events| - 1].ContextCompacted? then []
    else SinceCompaction(events[..|events| - 1]) + [events[|events| - 1]]
  }

  lemma {:induction false} ReadsSinceCompaction(events: seq<AppEvent>)
    ensures ReadAll(NOTHING_READ, events) == ReadAll(NOTHING_READ, SinceCompaction(events))
    ensures forall i | 0 <= i < |SinceCompaction(events)| :: !SinceCompaction(events)[i].ContextCompacted?
  {
    if events != [] {
      var n := |events| - 1;
      ReadsSinceCompaction(events[..n]);
      assert events[..n] + [events[n]] == events && [events[n]][1..] == [];
      ReadConcat(NOTHING_READ, events[..n], [events[n]]);
      ReadConcat(NOTHING_READ, SinceCompaction(events[..n]), [events[n]]);
    }
  }

  /**
   A journal reads well exactly when, since its last compaction, the outputs are the proposed
   calls in order, no output comes before its proposal, and nothing else is said while a call is
   open.
   */
  lemma ReadsWellExactly(events: seq<AppEvent>)
    ensures var recent := SinceCompaction(events);
            ReadAll(NOTHING_READ, events).waiting == Some([])
            <==> InOrder(recent) && Outputs(recent) == Proposals(recent)
  {
    var recent := SinceCompaction(events);
    ReadsSinceCompaction(events);
    ReadingReflects(recent);
    if InOrder(recent) {
      InOrderFollows(recent);
      TakesOutput(Outputs(recent), Proposals(recent), "");
    }
  }
}
