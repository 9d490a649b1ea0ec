/**
 When the truncation figure is wrong, and by how much: runs that reach the bounds, and the
 exact conditions under which no run does.
 */
module Truncation {
  import opened Common
  import opened Bridge
  import opened Plane
  import opened OtherItems
  import opened MediaTheorems
  import Base64
  import Ledger

  // -- Continuations ----------------------------------------------------

  function Then(s: World, more: seq<Step>): World
    decreases |more|
  {
    if more == [] then s else Then(Do(s, more[0]), more[1..])
  }

  lemma {:induction false} ThenAppend(s: World, xs: seq<Step>, ys: seq<Step>)
    ensures Then(s, xs + ys) == Then(Then(s, xs), ys)
    decreases |xs|
  {
    if xs == [] {
      assert xs + ys == ys;
    } else {
      assert (xs + ys)[1..] == xs[1..] + ys;
      ThenAppend(Do(s, xs[0]), xs[1..], ys);
    }
  }

  lemma {:induction false} ExecThen(steps: seq<Step>, more: seq<Step>)
    ensures Exec(steps + more) == Then(Exec(steps), more)
    decreases |more|
  {
    if more == [] {
      assert steps + more == steps;
    } else {
      assert steps + more == (steps + [more[0]]) + more[1..];
      assert (steps + [more[0]])[..|steps|] == steps;
      ExecThen(steps + [more[0]], more[1..]);
    }
  }

  lemma Cons(s: World, step: Step, more: seq<Step>)
    ensures Then(s, [step] + more) == Then(Do(s, step), more)
  {
    assert ([step] + more)[1..] == more;
  }

  // -- Twilio can play and echo everything it was sent ------------------

  predicate Playable(s: World)
    requires TwilioInv(s)
  {
    LogSized(s.b.twilio) && MarksReturn(s.b.twilio, s.t.next, s.t.echoed)
  }

  predicate LogSized(log: seq<ToTwilio>) {
    forall i | 0 <= i < |log| && log[i].Media? :: AudioBytes(log[i].payload) > 0
  }

  predicate MarksReturn(log: seq<ToTwilio>, next: nat, echoed: set<nat>)
    requires next <= |log|
  {
    forall i | 0 <= i < next && log[i].Mark? :: log[i].mark in echoed
  }

  ghost predicate Live(s: World) {
    Inv(s) && Playable(s)
  }

  lemma PlayableStep(s: World, step: Step)
    requires Enabled(s, step) && TwilioInv(s) && TwilioInv(Apply(s, step)) && QueueInv(s) && Playable(s)
    ensures Playable(Apply(s, step))
  {
    LogGrowsBy(s, step);
    EchoesGrow(s, step);
  }

  lemma LogGrowsBy(s: World, step: Step)
    requires Enabled(s, step) && QueueInv(s) && LogSized(s.b.twilio)
    ensures s.b.twilio <= Apply(s, step).b.twilio && LogSized(Apply(s, step).b.twilio)
  {
  }

  lemma EchoesGrow(s: World, step: Step)
    requires Enabled(s, step) && TwilioInv(s) && MarksReturn(s.b.twilio, s.t.next, s.t.echoed)
    ensures Apply(s, step).t.next <= |s.b.twilio|
    ensures MarksReturn(s.b.twilio, Apply(s, step).t.next, Apply(s, step).t.echoed)
  {
  }

  lemma LiveStep(s: World, step: Step)
    requires Live(s)
    ensures Live(Do(s, step))
  {
    if Enabled(s, step) {
      InvStep(s, step);
      PlayableStep(s, step);
    }
  }

  lemma {:induction false} LiveHolds(steps: seq<Step>)
    ensures Live(Exec(steps))
  {
    if steps != [] {
      LiveHolds(steps[..|steps| - 1]);
      LiveStep(Exec(steps[..|steps| - 1]), steps[|steps| - 1]);
    } else {
      InvHolds(steps);
    }
  }

  /** The writer's and Twilio's own progress: no event of the model, no interruption, no failure. */
  predicate Onward(step: Step) {
    || step.WriterTakes? || step.WriterSendsMedia? || step.WriterSendsMark? || step.WriterRecords?
    || step.TwilioReceives? || step.TwilioPlays? || step.EchoRead?
  }

  predicate AllOnward(more: seq<Step>) {
    forall k | 0 <= k < |more| :: Onward(more[k])
  }

  /** An outstanding mark that covers everything recorded, and has been written. */
  ghost predicate TopMark(b: State, x: nat) {
    x in b.ledger.marks && b.ledger.marks[x] == b.ledger.queued && exists j :: MarkAt(b, j, x)
  }

  /** Nothing of the current item has been queued yet: every frame is earlier, or another item's. */
  predicate Untouched(s: World) {
    && !s.b.writer.Stopped? && s.b.cut.NoCut?
    && forall x | s.m.floor < x <= s.b.markSeq :: x in s.m.others
  }

  /** All bytes queued or held by the writer but not recorded. */
  function Pending(b: State): int { OldPending(b, b.markSeq) }

  /** Nothing more was heard of the item itself. */
  predicate StillUnheard(m: Monitor, m': Monitor) {
    m' == m.(othersHeard := m'.othersHeard)
  }

  function NextWrite(b: State): Step {
    match b.writer
    case Holding(_) => WriterSendsMedia
    case MediaWritten(_) => WriterSendsMark
    case MarkWritten(_) => WriterRecords
    case _ => WriterTakes
  }

  function Work(b: State): nat {
    4 * |b.queue| + match b.writer
      case Holding(_) => 3
      case MediaWritten(_) => 2
      case MarkWritten(_) => 1
      case _ => 0
  }

  lemma WriteStep(s: World)
    requires QueueInv(s) && Untouched(s) && MarkLast(s.b) && (s.b.queue != [] || s.b.writer.Busy())
    ensures var step, s' := NextWrite(s.b), Do(s, NextWrite(s.b));
            && Onward(step) && Work(s'.b) < Work(s.b)
            && s'.m == s.m && Untouched(s')
            && s'.b.ledger.itemId == s.b.ledger.itemId && s'.b.ledger.itemStart == s.b.ledger.itemStart
            && s'.b.ledger.queued + Pending(s'.b) == s.b.ledger.queued + Pending(s.b)
            && (if step.WriterRecords? then TopMark(s'.b, s.b.writer.item.mark)
                else Pending(s'.b) == Pending(s.b))
  {
    if s.b.writer.MarkWritten? {
      RecordedOnTop(s.b);
    } else if s.b.writer.Waiting? {
      assert s.b.queue[0].mark <= s.b.markSeq;
    }
  }

  lemma RecordedOnTop(b: State)
    requires MarkLast(b) && b.writer.MarkWritten?
    ensures TopMark(b.FrameRecorded(), b.writer.item.mark)
  {
    var j :| MarkAt(b, j, b.writer.item.mark);
    assert MarkAt(b.FrameRecorded(), j, b.writer.item.mark);
  }

  lemma NoWorkLeft(s: World)
    requires QueueInv(s) && Untouched(s)
    ensures Pending(s.b) >= 0
    ensures Pending(s.b) == 0 <==> s.b.queue == [] && !s.b.writer.Busy()
  {
    OldBytesNonNegative(s.b.queue, s.b.markSeq);
    if s.b.queue != [] {
      OldBytesNonNegative(s.b.queue[1..], s.b.markSeq);
    }
  }

  /** The writer can finish everything queued, and then its last mark covers all of it. */
  lemma {:induction false} WriteAll(s: World) returns (more: seq<Step>, x: nat)
    requires Live(s) && Untouched(s) && Pending(s.b) > 0
    ensures AllOnward(more)
    ensures var e := Then(s, more);
            && Live(e) && Untouched(e) && e.m == s.m && e.b.queue == [] && e.b.writer.Waiting? && TopMark(e.b, x)
            && e.b.ledger.itemId == s.b.ledger.itemId && e.b.ledger.itemStart == s.b.ledger.itemStart
            && e.b.ledger.queued == s.b.ledger.queued + Pending(s.b)
    decreases Work(s.b)
  {
    NoWorkLeft(s);
    WriteStep(s);
    var step, s' := NextWrite(s.b), Do(s, NextWrite(s.b));
    LiveStep(s, step);
    NoWorkLeft(s');
    if Pending(s'.b) == 0 {
      more, x := [], s.b.writer.item.mark;
    } else {
      more, x := WriteAll(s');
    }
    Cons(s, step, more);
    more := [step] + more;
  }

  lemma {:induction false} ReceiveAll(s: World) returns (more: seq<Step>)
    requires Live(s)
    ensures AllOnward(more)
    ensures var e := Then(s, more); Live(e) && e.b == s.b && e.m == s.m && e.t.received == |s.b.twilio|
    decreases |s.b.twilio| - s.t.received
  {
    if s.t.received == |s.b.twilio| {
      more := [];
    } else {
      ReceiveStep(s);
      more := ReceiveAll(Do(s, TwilioReceives));
      Cons(s, TwilioReceives, more);
      more := [TwilioReceives] + more;
    }
  }

  lemma ReceiveStep(s: World)
    requires Live(s) && s.t.received < |s.b.twilio|
    ensures var e := Do(s, TwilioReceives); Live(e) && e.b == s.b && e.m == s.m && e.t.received == s.t.received + 1
  {
    LiveStep(s, TwilioReceives);
  }

  lemma PlayStep(s: World) returns (step: Step)
    requires Live(s) && Untouched(s) && s.t.next < s.t.received
    ensures Enabled(s, step) && step.TwilioPlays?
    ensures var e := Do(s, step); e.b == s.b && StillUnheard(s.m, e.m) && e.t.received == s.t.received && e.t.next == s.t.next + 1
  {
    var e := s.b.twilio[s.t.next];
    if e.Media? {
      step := TwilioPlays(AudioBytes(e.payload) - s.t.offset);
    } else {
      step := TwilioPlays(0);
    }
  }

  /** None of what is played is the item's, so nothing is heard of it. */
  lemma {:induction false} PlayAll(s: World) returns (more: seq<Step>)
    requires Live(s) && Untouched(s) && s.t.received == |s.b.twilio|
    ensures AllOnward(more)
    ensures var e := Then(s, more); Live(e) && e.b == s.b && StillUnheard(s.m, e.m) && e.t.next == |s.b.twilio|
    decreases |s.b.twilio| - s.t.next
  {
    if s.t.next == |s.b.twilio| {
      more := [];
    } else {
      var step := PlayStep(s);
      LiveStep(s, step);
      more := PlayAll(Do(s, step));
      Cons(s, step, more);
      more := [step] + more;
    }
  }

  lemma EchoTop(s: World, x: nat)
    requires Live(s) && TopMark(s.b, x) && s.t.next == |s.b.twilio|
    ensures var e := Do(s, EchoRead(x));
            && e.m == s.m && e.b.cut == s.b.cut
            && e.b.ledger.itemId == s.b.ledger.itemId
            && Reported(e.b) == s.b.ledger.queued - s.b.ledger.itemStart
  {
    var j :| MarkAt(s.b, j, x);
    assert x in s.t.echoed;
    EchoReports(s, x);
  }

  lemma EchoReports(s: World, x: nat)
    requires x in s.t.echoed && s.b.ledger.Consistent() && x in s.b.ledger.marks
    requires s.b.ledger.marks[x] == s.b.ledger.queued
    ensures var e := Do(s, EchoRead(x));
            && e.m == s.m && e.b.cut == s.b.cut
            && e.b.ledger.itemId == s.b.ledger.itemId
            && Reported(e.b) == s.b.ledger.queued - s.b.ledger.itemStart
  {
  }

  lemma AppendOnward(xs: seq<Step>, ys: seq<Step>)
    requires AllOnward(xs) && AllOnward(ys)
    ensures AllOnward(xs + ys)
  {
  }

  /** From any state where nothing of the item is queued yet, all pending audio can be reported as heard. */
  lemma PendingReported(s: World) returns (more: seq<Step>)
    requires Live(s) && Untouched(s) && Pending(s.b) > 0
    ensures AllOnward(more)
    ensures var e := Then(s, more);
            && e.b.cut.NoCut? && e.b.ledger.itemId == s.b.ledger.itemId && StillUnheard(s.m, e.m)
            && Reported(e.b) == s.b.ledger.queued + Pending(s.b) - s.b.ledger.itemStart
  {
    var writes, x := WriteAll(s);
    var s1 := Then(s, writes);
    var receives := ReceiveAll(s1);
    var s2 := Then(s1, receives);
    var plays := PlayAll(s2);
    var s3 := Then(s2, plays);
    EchoTop(s3, x);
    Cons(s3, EchoRead(x), []);
    ThenAppend(s2, plays, [EchoRead(x)]);
    ThenAppend(s1, receives, plays + [EchoRead(x)]);
    ThenAppend(s, writes, receives + (plays + [EchoRead(x)]));
    AppendOnward(plays, [EchoRead(x)]);
    AppendOnward(receives, plays + [EchoRead(x)]);
    AppendOnward(writes, receives + (plays + [EchoRead(x)]));
    more := writes + (receives + (plays + [EchoRead(x)]));
  }

  // -- A drain can always finish ----------------------------------------

  lemma DrainStep(s: World)
    requires s.b.queue != [] || s.b.writer.Busy()
    requires !s.b.writer.Stopped?
    ensures var step, s' := NextWrite(s.b), Do(s, NextWrite(s.b));
            && Onward(step) && Work(s'.b) < Work(s.b) && !s'.b.writer.Stopped?
            && s'.b.markSeq == s.b.markSeq && s'.m == s.m && s'.b.framesDropped == s.b.framesDropped
  {
  }

  lemma {:induction false} Drained(s: World) returns (more: seq<Step>)
    requires Live(s) && !s.b.writer.Stopped?
    ensures AllOnward(more)
    ensures var e := Then(s, more);
            && Live(e) && e.b.queue == [] && e.b.writer.Waiting?
            && e.b.markSeq == s.b.markSeq && e.m == s.m && e.b.framesDropped == s.b.framesDropped
    decreases Work(s.b)
  {
    if s.b.queue == [] && !s.b.writer.Busy() {
      more := [];
    } else {
      var step := NextWrite(s.b);
      DrainStep(s);
      LiveStep(s, step);
      more := Drained(Do(s, step));
      Cons(s, step, more);
      more := [step] + more;
    }
  }

  lemma DrainedCounts(s: World, e: World)
    requires QueueInv(s) && QueueInv(e) && !s.b.writer.Stopped? && e.b.queue == [] && e.b.writer.Waiting?
    requires e.b.markSeq == s.b.markSeq && e.m == s.m && e.b.framesDropped == s.b.framesDropped
    ensures e.b.unfinished == 0 && e.b.framesToCaller == s.b.framesToCaller + s.b.unfinished
  {
  }

  /**
   From every reachable state with a live writer, in the middle of a cut or not, the
   writer's own steps can bring the unfinished count to zero, which is what a drain waits
   for; and then every frame that was unfinished has gone to the caller.
   */
  lemma DrainCanFinish(steps: seq<Step>) returns (more: seq<Step>)
    requires !Exec(steps).b.writer.Stopped?
    ensures AllOnward(more)
    ensures var s, e := Exec(steps), Exec(steps + more);
            e.b.unfinished == 0 && e.b.framesToCaller == s.b.framesToCaller + s.b.unfinished
  {
    LiveHolds(steps);
    more := Drained(Exec(steps));
    ExecThen(steps, more);
    DrainedCounts(Exec(steps), Exec(steps + more));
  }

  lemma {:induction false} StuckQueue(s: World, more: seq<Step>)
    requires s.b.writer.Stopped? && AllOnward(more)
    ensures var e := Then(s, more); e.b.writer.Stopped? && e.b.queue == s.b.queue
    decreases |more|
  {
    if more != [] {
      StuckQueue(Do(s, more[0]), more[1..]);
    }
  }

  /** So a drain can finish exactly when the writer lives or nothing is queued. */
  lemma DrainFinishesIff(steps: seq<Step>)
    ensures (exists more :: AllOnward(more) && Exec(steps + more).b.unfinished == 0)
            <==> !Exec(steps).b.writer.Stopped? || Exec(steps).b.queue == []
  {
    var s := Exec(steps);
    if !s.b.writer.Stopped? {
      var more := DrainCanFinish(steps);
    } else {
      QueueTheorem(steps);
      assert steps + [] == steps && AllOnward([]);
      if more :| AllOnward(more) && Exec(steps + more).b.unfinished == 0 {
        ExecThen(steps, more);
        StuckQueue(s, more);
        QueueTheorem(steps + more);
      }
    }
  }

  // -- Exactly when the figure can be too high --------------------------

  lemma ExecStarts(steps: seq<Step>, id: string)
    requires Enabled(Exec(steps), ItemAdded(id))
    ensures Exec(steps + [ItemAdded(id)]) == Apply(Exec(steps), ItemAdded(id))
  {
    assert (steps + [ItemAdded(id)])[..|steps|] == steps;
  }

  /**
   The bound is attained from every reachable item start: with a live writer and earlier
   audio pending, the bridge and Twilio need only go on for the figure to claim all of
   that audio as heard, before a byte of the item has been.
   */
  lemma SlackAttained(steps: seq<Step>, id: string) returns (more: seq<Step>)
    requires Enabled(Exec(steps), ItemAdded(id))
    requires !Exec(steps).b.writer.Stopped? && Pending(Exec(steps).b) > 0
    ensures AllOnward(more)
    ensures var s, e := Exec(steps), Exec(steps + [ItemAdded(id)] + more);
            && e.b.cut.NoCut? && e.b.ledger.itemId == Some(id)
            && e.m.heard == 0 && e.m.others == {} && e.m.slack == Pending(s.b)
            && Reported(e.b) == e.m.slack
  {
    ExecStarts(steps, id);
    LiveHolds(steps + [ItemAdded(id)]);
    more := PendingReported(Exec(steps + [ItemAdded(id)]));
    ExecThen(steps + [ItemAdded(id)], more);
  }

  /** No other item starts. */
  predicate SameItem(more: seq<Step>) {
    forall k | 0 <= k < |more| :: !more[k].ItemAdded?
  }

  /** A dead writer records nothing more. */
  predicate Dead(b: State) {
    b.ledger.itemId.None? || (b.writer.Stopped? && b.ledger.queued <= b.ledger.itemStart)
  }

  lemma DeadStep(s: World, step: Step)
    requires Dead(s.b) && !step.ItemAdded?
    ensures Dead(Do(s, step).b)
  {
  }

  lemma {:induction false} DeadHolds(s: World, more: seq<Step>)
    requires Dead(s.b) && SameItem(more)
    ensures Dead(Then(s, more).b)
    decreases |more|
  {
    if more != [] {
      DeadStep(s, more[0]);
      DeadHolds(Do(s, more[0]), more[1..]);
    }
  }

  /** No other item starts, and every delta is the item's own. */
  predicate OwnAudioOnly(more: seq<Step>, id: string) {
    SameItem(more) && forall k | 0 <= k < |more| && more[k].AudioDelta? :: more[k].item == id
  }

  predicate OverReports(s: World) {
    s.b.cut.NoCut? && s.b.ledger.itemId.Some? && Reported(s.b) > s.m.heard
  }

  /** While the item lasts, the slack is what it was and nothing of another item is queued. */
  predicate Steady(s: World, id: string, slack: int) {
    s.b.ledger.itemId.None? || (s.b.ledger.itemId == Some(id) && s.m.others == {} && s.m.slack == slack)
  }

  lemma SteadyStep(s: World, step: Step, id: string, slack: int)
    requires Steady(s, id, slack) && !step.ItemAdded? && (step.AudioDelta? ==> step.item == id)
    ensures Steady(Do(s, step), id, slack)
  {
  }

  lemma {:induction false} SteadyHolds(s: World, more: seq<Step>, id: string, slack: int)
    requires Steady(s, id, slack) && OwnAudioOnly(more, id)
    ensures Steady(Then(s, more), id, slack)
    decreases |more|
  {
    if more != [] {
      SteadyStep(s, more[0], id, slack);
      SteadyHolds(Do(s, more[0]), more[1..], id, slack);
    }
  }

  /**
   For as long as an item is the only one the model speaks, the figure can come to claim
   more of it than was heard exactly when, at its start, earlier audio was queued or in
   flight and the writer was alive.
   */
  lemma OverReportPossibleIff(steps: seq<Step>, id: string)
    requires Enabled(Exec(steps), ItemAdded(id))
    ensures var b := Exec(steps).b;
            (exists more :: OwnAudioOnly(more, id) && OverReports(Exec(steps + [ItemAdded(id)] + more)))
            <==> !b.writer.Stopped? && (b.queue != [] || b.writer.Busy())
  {
    var start := steps + [ItemAdded(id)];
    var s, b := Exec(start), Exec(steps).b;
    ExecStarts(steps, id);
    LiveHolds(start);
    if !b.writer.Stopped? {
      NoWorkLeft(s);
      if s.m.slack > 0 {
        var more := SlackAttained(steps, id);
        assert OwnAudioOnly(more, id) && OverReports(Exec(start + more));
      }
    }
    if more :| OwnAudioOnly(more, id) && OverReports(Exec(start + more)) {
      ExecThen(start, more);
      SteadyHolds(s, more, id, s.m.slack);
      FigureBound(start + more);
      LiveHolds(start + more);
      if b.writer.Stopped? {
        DeadHolds(s, more);
      }
    }
  }

  /** On a started stream another item's audio is queued, and nothing of the current one's. */
  lemma ForeignQueued(s: World, id: string)
    requires Live(s) && Untouched(s) && Pending(s.b) == 0 && s.b.ledger.itemId == Some(id) && s.b.listening
    requires s.b.streamSid != ""
    ensures var e := Do(s, AudioDelta(id + "x", "AAAA"));
            && Untouched(e) && Pending(e.b) > 0 && e.b.ledger == s.b.ledger && e.m.heard == s.m.heard
  {
    NoWorkLeft(s);
    assert id + "x" != id;
    Base64.DecodedSizeExact("AAAA");
    var item := OutboundAudio(s.b.markSeq + 1, "AAAA", Base64.DecodedSize("AAAA"));
    assert s.b.queue == [] && [] + [item] == [item];
    assert OldBytes([item], item.mark) == item.decodedBytes + OldBytes([item][1..], item.mark);
  }

  lemma StreamStarts(s: World)
    ensures var e := Do(s, StreamStart("MZ"));
            && e.b == s.b.(streamSid := "MZ", hasController := true) && e.t == s.t && e.m == s.m
  {
  }

  /**
   When other items may be spoken alongside, no item is safe: the figure can come to
   claim more of it than was heard exactly when the writer was alive at its start.
   */
  lemma OverReportWithOthersIff(steps: seq<Step>, id: string)
    requires Enabled(Exec(steps), ItemAdded(id))
    ensures (exists more :: SameItem(more) && OverReports(Exec(steps + [ItemAdded(id)] + more)))
            <==> !Exec(steps).b.writer.Stopped?
  {
    var start := steps + [ItemAdded(id)];
    var s := Exec(start);
    ExecStarts(steps, id);
    LiveHolds(start);
    if !s.b.writer.Stopped? {
      NoWorkLeft(s);
      var more := ReachOverReport(s, id);
      ExecThen(start, more);
      assert SameItem(more) && OverReports(Exec(start + more));
    }
    if more :| SameItem(more) && OverReports(Exec(start + more)) {
      ExecThen(start, more);
      if s.b.writer.Stopped? {
        DeadHolds(s, more);
        LiveHolds(start + more);
      }
    }
  }

  lemma ReachOverReport(s: World, id: string) returns (more: seq<Step>)
    requires Live(s) && Untouched(s) && s.b.ledger.itemId == Some(id) && s.b.listening
    requires s.b.ledger.queued == s.b.ledger.itemStart && s.m.heard == 0
    ensures SameItem(more) && OverReports(Then(s, more))
    decreases s.b.streamSid == ""
  {
    NoWorkLeft(s);
    if Pending(s.b) > 0 {
      more := PendingReported(s);
    } else if s.b.streamSid == "" {
      var first := StreamStart("MZ");
      StreamStarts(s);
      LiveStep(s, first);
      more := ReachOverReport(Do(s, first), id);
      Cons(s, first, more);
      more := [first] + more;
    } else {
      var first := AudioDelta(id + "x", "AAAA");
      ForeignQueued(s, id);
      LiveStep(s, first);
      more := PendingReported(Do(s, first));
      Cons(s, first, more);
      more := [first] + more;
    }
  }

  // -- Exactly when unacknowledged audio is the whole of the shortfall --

  /** Bytes of the item written to Twilio that the caller has not heard. */
  function Unheard(s: World): int { ItemBytes(s.b.twilio, |s.b.twilio|, s.m.floor) - s.m.heard }

  /** Bytes of the item written to Twilio that the ledger does not hold: not yet, or never. */
  function Missed(s: World): int { Unrecorded(s.b, s.m.floor) + s.m.lostBytes }

  /**
   After a drained start, at any instant of playback: what was heard and what is still to
   be heard are the figure, the unacknowledged audio and what was written but is not
   recorded. So the unacknowledged audio is the whole of the error exactly when as much
   is still unheard as is unrecorded, and covers the error exactly when at least as much is.
   */
  lemma UnplayedIsWholeErrorIff(steps: seq<Step>)
    requires Exec(steps).b.cut.NoCut? && Exec(steps).b.ledger.itemId.Some?
    requires Exec(steps).m.slack == 0 && Exec(steps).m.others == {}
    ensures var s := Exec(steps);
            && Unheard(s) >= 0 && Missed(s) >= 0
            && s.m.heard + Unheard(s) == Reported(s.b) + Unplayed(s.b) + Missed(s)
            && (s.m.heard - Reported(s.b) == Unplayed(s.b) <==> Unheard(s) == Missed(s))
            && (s.m.heard - Reported(s.b) <= Unplayed(s.b) <==> Missed(s) <= Unheard(s))
  {
    InvHolds(steps);
    OthersHold(steps);
    AccountsBalance(Exec(steps));
  }

  lemma AccountsBalance(s: World)
    requires TwilioInv(s) && PlayedPrefix(s) && QueueInv(s) && MonitorInv(s) && Accounted(s)
    requires s.m.slack == 0 && s.m.othersHeard == 0
    ensures Unheard(s) >= 0 && Missed(s) >= 0
    ensures s.m.heard + Unheard(s) == Reported(s.b) + Unplayed(s.b) + Missed(s)
  {
    PendingNonNegative(s);
    HeardIsWritten(s);
  }

  // -- Concrete runs ----------------------------------------------------

  lemma Then3(s: World, a: Step, b: Step, c: Step)
    ensures Then(s, [a, b, c]) == Do(Do(Do(s, a), b), c)
  {
    assert [a, b, c][1..] == [b, c];
    Then2(Do(s, a), b, c);
  }

  lemma Then2(s: World, a: Step, b: Step)
    ensures Then(s, [a, b]) == Do(Do(s, a), b)
  {
    assert [a, b][1..] == [b];
    Then1(Do(s, a), b);
  }

  lemma Then1(s: World, a: Step)
    ensures Then(s, [a]) == Do(s, a)
  {
    assert [a][1..] == [];
  }

  lemma Then4(s: World, a: Step, b: Step, c: Step, d: Step)
    ensures Then(s, [a, b, c, d]) == Do(Do(Do(Do(s, a), b), c), d)
  {
    assert [a, b, c, d][1..] == [b, c, d];
    Then3(Do(s, a), b, c, d);
  }

  lemma Then5(s: World, a: Step, b: Step, c: Step, d: Step, e: Step)
    ensures Then(s, [a, b, c, d, e]) == Do(Do(Do(Do(Do(s, a), b), c), d), e)
  {
    assert [a, b, c, d, e][1..] == [b, c, d, e];
    Then4(Do(s, a), b, c, d, e);
  }

  const WRITE := [WriterTakes, WriterSendsMedia, WriterSendsMark, WriterRecords]

  function Play(payload: string): seq<Step> {
    [TwilioReceives, TwilioReceives, TwilioPlays(AudioBytes(payload)), TwilioPlays(0), EchoRead(1)]
  }

  /** A started stream whose one frame, still queued, stands against the current item `id`. */
  predicate OneQueued(s: World, id: string, payload: string) {
    && s.b == Initial().(streamSid := "MZ", hasController := true, markSeq := 1, unfinished := 1,
                         queue := [OutboundAudio(1, payload, AudioBytes(payload))],
                         ledger := Ledger.State(map[], 0, 0, Some(id), 0))
    && s.t == Start().t
  }

  lemma WriteOne(s: World, id: string, payload: string)
    requires OneQueued(s, id, payload)
    ensures var w := Then(s, WRITE);
            && w.b == s.b.(queue := [], unfinished := 0, framesToCaller := 1,
                           twilio := [Media(1, payload), Mark(1)],
                           ledger := Ledger.State(map[1 := AudioBytes(payload)], 0, AudioBytes(payload), Some(id), 0))
            && w.t == s.t && w.m == s.m
  {
    Then4(s, WriterTakes, WriterSendsMedia, WriterSendsMark, WriterRecords);
    SendOne(s, id, payload);
    RecordOne(Do(Do(Do(s, WriterTakes), WriterSendsMedia), WriterSendsMark), payload);
  }

  lemma SendOne(s: World, id: string, payload: string)
    requires OneQueued(s, id, payload)
    ensures var w := Do(Do(Do(s, WriterTakes), WriterSendsMedia), WriterSendsMark);
            && w.b == s.b.(queue := [], twilio := [Media(1, payload), Mark(1)],
                           writer := MarkWritten(OutboundAudio(1, payload, AudioBytes(payload))))
            && w.t == s.t && w.m == s.m
  {
  }

  lemma RecordOne(s: World, payload: string)
    requires s.b.writer == MarkWritten(OutboundAudio(1, payload, AudioBytes(payload)))
    ensures var w := Do(s, WriterRecords);
            && w.b == s.b.(writer := Waiting, unfinished := s.b.unfinished - 1, framesToCaller := s.b.framesToCaller + 1,
                           ledger := s.b.ledger.ChunkSent(1, AudioBytes(payload)))
            && w.t == s.t && w.m == s.m
  {
  }

  lemma PlayOne(s: World, payload: string)
    requires s.t == Start().t && s.b.twilio == [Media(1, payload), Mark(1)] && AudioBytes(payload) > 0
    ensures Then(s, Play(payload))
         == Do(s.(t := Twilio(2, 2, 0, {1}), m := s.m.Played(1, AudioBytes(payload))), EchoRead(1))
  {
    Then5(s, TwilioReceives, TwilioReceives, TwilioPlays(AudioBytes(payload)), TwilioPlays(0), EchoRead(1));
    ReceiveBoth(s, payload);
    PlayReceived(s.(t := Twilio(2, 0, 0, {})), payload);
  }

  lemma ReceiveBoth(s: World, payload: string)
    requires s.t == Start().t && s.b.twilio == [Media(1, payload), Mark(1)]
    ensures Do(Do(s, TwilioReceives), TwilioReceives) == s.(t := Twilio(2, 0, 0, {}))
  {
    var s1 := Do(s, TwilioReceives);
    assert s1 == s.(t := Twilio(1, 0, 0, {}));
  }

  lemma PlayReceived(s: World, payload: string)
    requires s.t == Twilio(2, 0, 0, {}) && s.b.twilio == [Media(1, payload), Mark(1)] && AudioBytes(payload) > 0
    ensures Do(Do(s, TwilioPlays(AudioBytes(payload))), TwilioPlays(0))
         == s.(t := Twilio(2, 2, 0, {1}), m := s.m.Played(1, AudioBytes(payload)))
  {
  }

  lemma EchoOne(s: World, id: string, n: nat)
    requires s.b.ledger == Ledger.State(map[1 := n], 0, n, Some(id), 0) && 1 in s.t.echoed && n > 0
    ensures var e := Do(s, EchoRead(1));
            e.m == s.m && e.b.cut == s.b.cut && e.b.ledger.itemId == Some(id) && Reported(e.b) == n
  {
  }

  /** Written, played and acknowledged, the frame is reported in full. */
  lemma ReportedInFull(s: World, id: string, payload: string)
    requires OneQueued(s, id, payload) && AudioBytes(payload) > 0
    ensures var e := Then(s, WRITE + Play(payload));
            && e.b.cut.NoCut? && e.b.ledger.itemId == Some(id) && Reported(e.b) == AudioBytes(payload)
            && e.m == s.m.Played(1, AudioBytes(payload))
  {
    ThenAppend(s, WRITE, Play(payload));
    WriteOne(s, id, payload);
    var w := Then(s, WRITE);
    PlayOne(w, payload);
    EchoOne(w.(t := Twilio(2, 2, 0, {1}), m := s.m.Played(1, AudioBytes(payload))), id, AudioBytes(payload));
  }

  /** A frame is queued, the next item starts, and only then is the frame written and played. */
  function LateFrame(payload: string): seq<Step> {
    [StreamStart("MZ"), AudioDelta("first", payload), ItemAdded("next")] + (WRITE + Play(payload))
  }

  lemma LateFrameQueued(payload: string)
    requires Base64.Valid(payload) && AudioBytes(payload) > 0
    ensures var s := Do(Do(Do(Start(), StreamStart("MZ")), AudioDelta("first", payload)), ItemAdded("next"));
            && OneQueued(s, "next", payload)
            && s.m == Monitor(1, 0, AudioBytes(payload), 0, {}, 0, 0, 0, 0, 0)
  {
    Base64.DecodedSizeExact(payload);
    var item := OutboundAudio(1, payload, AudioBytes(payload));
    assert OldBytes([item], 1) == item.decodedBytes + OldBytes([item][1..], 1);
  }

  /**
   For any audio: what was still queued of the previous item is reported, in full, as
   heard audio of an item of which nobody has heard a byte.
   */
  lemma OverReportAttained(payload: string)
    requires Base64.Valid(payload) && AudioBytes(payload) > 0
    ensures var s := Exec(LateFrame(payload));
            && s.b.cut.NoCut? && s.b.ledger.itemId == Some("next")
            && s.m.heard == 0 && s.m.others == {} && s.m.slack == AudioBytes(payload)
            && Reported(s.b) == AudioBytes(payload)
  {
    var started := [StreamStart("MZ"), AudioDelta("first", payload), ItemAdded("next")];
    ExecThen([], LateFrame(payload));
    assert [] + LateFrame(payload) == LateFrame(payload);
    ThenAppend(Start(), started, WRITE + Play(payload));
    Then3(Start(), started[0], started[1], started[2]);
    LateFrameQueued(payload);
    ReportedInFull(Then(Start(), started), "next", payload);
  }

  /** Two items run side by side: the second is added while the first is being spoken. */
  function SpokenBehindMood(payload: string): seq<Step> {
    [StreamStart("MZ"), ItemAdded("spoken"), ItemAdded("mood"), AudioDelta("spoken", payload)] + (WRITE + Play(payload))
  }

  lemma SpokenQueued(payload: string)
    requires Base64.Valid(payload) && AudioBytes(payload) > 0
    ensures var s := Do(Do(Do(Do(Start(), StreamStart("MZ")), ItemAdded("spoken")), ItemAdded("mood")), AudioDelta("spoken", payload));
            && OneQueued(s, "mood", payload)
            && s.m == Monitor(0, 0, 0, 0, {1}, 0, AudioBytes(payload), 0, 0, 0)
  {
    Base64.DecodedSizeExact(payload);
  }

  /**
   For any audio: with nothing pending at its start, an item that has no audio at all is
   reported as heard, because another item was still being spoken.
   */
  lemma WrongItemReported(payload: string)
    requires Base64.Valid(payload) && AudioBytes(payload) > 0
    ensures var s := Exec(SpokenBehindMood(payload));
            && s.b.cut.NoCut? && s.b.ledger.itemId == Some("mood")
            && s.m.heard == 0 && s.m.slack == 0 && s.m.othersHeard == s.m.othersQueued == AudioBytes(payload)
            && Reported(s.b) == AudioBytes(payload)
  {
    var started := [StreamStart("MZ"), ItemAdded("spoken"), ItemAdded("mood"), AudioDelta("spoken", payload)];
    ExecThen([], SpokenBehindMood(payload));
    assert [] + SpokenBehindMood(payload) == SpokenBehindMood(payload);
    ThenAppend(Start(), started, WRITE + Play(payload));
    Then4(Start(), started[0], started[1], started[2], started[3]);
    SpokenQueued(payload);
    ReportedInFull(Then(Start(), started), "mood", payload);
  }

  /** A frame is heard before the writer has come back from sending it. */
  function HeardEarly(payload: string): seq<Step> {
    [StreamStart("MZ"), ItemAdded("spoken"), AudioDelta("spoken", payload)]
    + [WriterTakes, WriterSendsMedia, TwilioReceives, TwilioPlays(AudioBytes(payload))]
  }

  lemma SpokenAloneQueued(payload: string)
    requires Base64.Valid(payload) && AudioBytes(payload) > 0
    ensures var s := Do(Do(Do(Start(), StreamStart("MZ")), ItemAdded("spoken")), AudioDelta("spoken", payload));
            OneQueued(s, "spoken", payload) && s.m == Start().m
  {
    Base64.DecodedSizeExact(payload);
  }

  lemma HeardUnrecorded(s: World, payload: string)
    requires OneQueued(s, "spoken", payload) && s.m == Start().m && AudioBytes(payload) > 0
    ensures var e := Do(Do(Do(Do(s, WriterTakes), WriterSendsMedia), TwilioReceives), TwilioPlays(AudioBytes(payload)));
            && e.b.ledger == s.b.ledger && e.b.cut.NoCut? && e.m.heard == AudioBytes(payload)
            && e.m.slack == 0 && e.m.others == {}
  {
  }

  /** For any audio: the caller has heard more than the figure and the unacknowledged audio together. */
  lemma UnplayedFallsShort(payload: string)
    requires Base64.Valid(payload) && AudioBytes(payload) > 0
    ensures var s := Exec(HeardEarly(payload));
            && s.b.cut.NoCut? && s.b.ledger.itemId == Some("spoken") && s.m.slack == 0 && s.m.others == {}
            && s.m.heard == Reported(s.b) + Unplayed(s.b) + AudioBytes(payload)
  {
    var started := [StreamStart("MZ"), ItemAdded("spoken"), AudioDelta("spoken", payload)];
    var rest := [WriterTakes, WriterSendsMedia, TwilioReceives, TwilioPlays(AudioBytes(payload))];
    ExecThen([], started + rest);
    assert [] + (started + rest) == HeardEarly(payload);
    ThenAppend(Start(), started, rest);
    Then3(Start(), started[0], started[1], started[2]);
    SpokenAloneQueued(payload);
    Then4(Then(Start(), started), rest[0], rest[1], rest[2], rest[3]);
    HeardUnrecorded(Then(Start(), started), payload);
  }
}
