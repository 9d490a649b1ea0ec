/**
 What every run of the media plane guarantees, for every schedule of events,
 writes, playback and echoes.
 */
module MediaTheorems {
  import opened Common
  import opened Bridge
  import opened Plane
  import opened OtherItems
  import Ledger

  // -- The truncation figure --------------------------------------------

  lemma HeardIsWritten(s: World)
    requires TwilioInv(s) && PlayedPrefix(s)
    ensures s.m.Since() <= ItemBytes(s.b.twilio, |s.b.twilio|, s.m.floor)
  {
    var log, n := s.b.twilio, s.t.next;
    if s.t.offset > 0 {
      ItemBytesMonotone(log, n + 1, |log|, s.m.floor);
    } else {
      ItemBytesMonotone(log, n, |log|, s.m.floor);
    }
  }

  /** The figure a cut would report now, in bytes. */
  function Reported(b: State): int { b.ledger.played - b.ledger.itemStart }

  /** Bytes recorded but not acknowledged. */
  function Unplayed(b: State): int { b.ledger.queued - b.ledger.played }

  /**
   The figure a cut would report, in bytes, against what the caller has heard of the
   current item's own audio. It is too high by at most the earlier audio that was queued
   or in flight when the item started and the other items' audio heard since, which is at
   most what was queued of theirs. It is too low by at most the audio recorded but not
   acknowledged, the one frame written but not recorded, and what a dead writer lost.
   */
  lemma FigureBound(steps: seq<Step>)
    requires Exec(steps).b.cut.NoCut? && Exec(steps).b.ledger.itemId.Some?
    ensures var s := Exec(steps);
            && Reported(s.b) <= s.m.heard + s.m.slack + s.m.othersHeard
            && s.m.othersHeard <= s.m.othersQueued
            && (s.m.slack == 0 && s.m.others == {} ==> Reported(s.b) <= s.m.heard)
            && s.m.heard + s.m.othersHeard
               <= Reported(s.b) + Unplayed(s.b) + Unrecorded(s.b, s.m.floor) + s.m.lostBytes
  {
    InvHolds(steps);
    OthersHold(steps);
    FigureFromAccounts(Exec(steps));
  }

  lemma FigureFromAccounts(s: World)
    requires TwilioInv(s) && PlayedPrefix(s) && Accounted(s)
    ensures Reported(s.b) <= s.m.Since() + s.m.slack
    ensures s.m.Since() <= Reported(s.b) + Unplayed(s.b) + Unrecorded(s.b, s.m.floor) + s.m.lostBytes
  {
    HeardIsWritten(s);
  }

  /** `ms` is the whole milliseconds in the reported bytes, and zero when there are none. */
  predicate FigureOf(b: State, ms: int) {
    && (Reported(b) <= 0 ==> ms == 0)
    && (Reported(b) >= 0 ==> 8 * ms <= Reported(b) < 8 * ms + 8)
  }

  /** Both sides of the error of a figure taken now, in bytes. */
  predicate WithinError(s: World, ms: int) {
    && 8 * ms <= s.m.heard + s.m.slack + s.m.othersQueued
    && (s.m.slack == 0 && s.m.others == {} ==> 8 * ms <= s.m.heard)
    && s.m.heard + s.m.othersHeard
       < 8 * ms + 8 + Unplayed(s.b) + Unrecorded(s.b, s.m.floor) + s.m.lostBytes
  }

  /**
   Both kinds of interruption: the millisecond figure taken when the cut begins. It is
   the reported bytes to the millisecond, and its error is bounded from above and below;
   and so is the figure for what the flush throws away.
   */
  lemma CutReadsBoundedFigure(steps: seq<Step>, step: Step)
    requires step.SpeechStarted? || step.SafetyCut?
    requires Enabled(Exec(steps), step) && Exec(steps).b.hasController
    ensures var s, cut := Exec(steps), Apply(Exec(steps), step).b.cut;
            && cut.Cut? && cut.itemId == s.b.ledger.itemId
            && FigureOf(s.b, cut.audioEndMs)
            && 8 * cut.discardedMs <= Unplayed(s.b) < 8 * cut.discardedMs + 8
            && (cut.itemId.Some? ==> WithinError(s, cut.audioEndMs))
  {
    var s := Exec(steps);
    InvHolds(steps);
    OthersHold(steps);
    CutBegins(s, step);
    CutFigure(s.b, step.SpeechStarted?);
    if s.b.ledger.itemId.Some? {
      FigureFromAccounts(s);
      ErrorOfFigure(s, Apply(s, step).b.cut.audioEndMs);
    }
  }

  lemma CutFigure(b: State, drain: bool)
    requires b.cut.NoCut? && b.hasController && b.ledger.Consistent()
    ensures FigureOf(b, b.CutStarted(drain).cut.audioEndMs)
    ensures var ms := b.CutStarted(drain).cut.discardedMs; 8 * ms <= Unplayed(b) < 8 * ms + 8
  {
  }

  lemma ErrorOfFigure(s: World, ms: int)
    requires FigureOf(s.b, ms)
    requires s.m.heard >= 0 && s.m.slack >= 0 && s.m.othersHeard >= 0 && s.m.othersHeard <= s.m.othersQueued
    requires s.m.others == {} ==> s.m.othersHeard <= 0
    requires Reported(s.b) <= s.m.Since() + s.m.slack
    requires s.m.Since() <= Reported(s.b) + Unplayed(s.b) + Unrecorded(s.b, s.m.floor) + s.m.lostBytes
    ensures WithinError(s, ms)
  {
  }

  lemma CutBegins(s: World, step: Step)
    requires (step.SpeechStarted? || step.SafetyCut?) && Enabled(s, step) && s.b.hasController
    ensures Apply(s, step).b == s.b.CutStarted(step.SpeechStarted?)
    ensures Apply(s, step).b.cut.Cut? && Apply(s, step).b.cut.itemId == s.b.ledger.itemId
  {
  }

  ghost predicate SendsTruncate(steps: seq<Step>, k: int) {
    && 0 <= k < |steps|
    && steps[k].CutContinues?
    && Enabled(Exec(steps[..k]), steps[k])
    && Exec(steps[..k]).b.cut.stage == SendTruncate
  }

  /** Every truncate message the model is ever sent: it names the current item and obeys the bound. */
  lemma TruncateMessageBounded(steps: seq<Step>, k: nat)
    requires SendsTruncate(steps, k)
    ensures var s, s' := Exec(steps[..k]), Exec(steps[..k + 1]);
            && s.b.ledger.itemId.Some?
            && exists ms: nat ::
                 && s'.b.model == s.b.model + [Truncate(s.b.ledger.itemId.value, ms)]
                 && ms > 0 && 8 * ms <= s.m.heard + s.m.slack + s.m.othersQueued
                 && (s.m.slack == 0 && s.m.others == {} ==> 8 * ms <= s.m.heard)
  {
    var s := Exec(steps[..k]);
    assert steps[..k + 1][..k] == steps[..k];
    InvHolds(steps[..k]);
    OthersHold(steps[..k]);
    CutSoundHolds(steps[..k]);
    assert s.b.CutAdvanced().model == s.b.model + [Truncate(s.b.cut.itemId.value, s.b.cut.audioEndMs)];
  }

  /** Until the ledger is reset the cut's item is still the ledger's, and a truncate stage has one. */
  predicate CutSound(b: State) {
    b.cut.Cut? ==>
      && (b.cut.stage != Report ==> b.cut.itemId == b.ledger.itemId)
      && (b.cut.stage == SendTruncate ==> b.cut.Truncates())
  }

  lemma CutSoundStep(s: World, step: Step)
    requires CutSound(s.b)
    ensures CutSound(Do(s, step).b)
  {
  }

  lemma {:induction false} CutSoundHolds(steps: seq<Step>)
    ensures CutSound(Exec(steps).b)
  {
    if steps != [] {
      CutSoundHolds(steps[..|steps| - 1]);
      CutSoundStep(Exec(steps[..|steps| - 1]), steps[|steps| - 1]);
    }
  }

  lemma ExecPrefix(steps: seq<Step>, k: nat)
    requires k < |steps|
    ensures Exec(steps[..0]) == Start()
    ensures Exec(steps[..k + 1]) == Do(Exec(steps[..k]), steps[k])
  {
    assert steps[..k + 1][..k] == steps[..k];
  }

  // -- Order of the cut -------------------------------------------------

  /** Nothing of the current item is left to truncate. */
  predicate Spent(b: State) {
    match b.cut
    case NoCut => b.ledger.itemId.None?
    case Cut(id, _, _, _, stage) =>
      || stage == ResetLedger
      || (b.ledger.itemId.None? && stage != SendTruncate && (stage == Report || id.None?))
  }

  /** An item really starts: a step that cannot happen is skipped and starts nothing. */
  ghost predicate StartsItem(steps: seq<Step>, k: int) {
    0 <= k < |steps| && steps[k].ItemAdded? && Enabled(Exec(steps[..k]), steps[k])
  }

  lemma SpentStep(s: World, step: Step)
    requires Spent(s.b) && !(step.ItemAdded? && Enabled(s, step))
    ensures Spent(Do(s, step).b)
  {
  }

  lemma SpentExec(steps: seq<Step>, k: nat)
    requires k < |steps| && !StartsItem(steps, k) && Spent(Exec(steps[..k]).b)
    ensures Spent(Exec(steps[..k + 1]).b)
  {
    ExecPrefix(steps, k);
    SpentStep(Exec(steps[..k]), steps[k]);
  }

  lemma {:induction false} SpentUntilItem(steps: seq<Step>, i: nat, j: nat)
    requires i <= j <= |steps| && Spent(Exec(steps[..i]).b)
    requires forall k | i <= k < j :: !StartsItem(steps, k)
    ensures Spent(Exec(steps[..j]).b)
    decreases j
  {
    if i < j {
      SpentUntilItem(steps, i, j - 1);
      assert !StartsItem(steps, j - 1);
      SpentExec(steps, j - 1);
    }
  }

  /** Two truncates are always separated by the start of an item. */
  lemma TruncatesSeparated(steps: seq<Step>, i: nat, j: nat)
    requires i < j && SendsTruncate(steps, i) && SendsTruncate(steps, j)
    ensures exists k :: i < k < j && StartsItem(steps, k)
  {
    if forall k | i + 1 <= k < j :: !StartsItem(steps, k) {
      ExecPrefix(steps, i);
      SpentUntilItem(steps, i + 1, j);
      assert false;
    }
  }

  function MediaWrites(log: seq<ToTwilio>, n: nat): nat
    requires n <= |log|
  {
    if n == 0 then 0 else MediaWrites(log, n - 1) + (if log[n - 1].Media? then 1 else 0)
  }

  lemma {:induction false} MediaWritesFramed(log: seq<ToTwilio>, more: seq<ToTwilio>, n: nat)
    requires n <= |log|
    ensures MediaWrites(log + more, n) == MediaWrites(log, n)
  {
    if n > 0 {
      MediaWritesFramed(log, more, n - 1);
    }
  }

  function AllMedia(b: State): nat { MediaWrites(b.twilio, |b.twilio|) }

  function HeldFrames(b: State): nat { if b.writer.Holding? then 1 else 0 }

  /** Nothing is queued, and media sent plus media about to be sent has not grown. */
  predicate Quiet(start: State, now: State) {
    now.queue == [] && AllMedia(now) + HeldFrames(now) <= AllMedia(start) + HeldFrames(start)
  }

  lemma QuietStart(s: World, step: Step)
    requires Enabled(s, step) && step.SpeechStarted? && s.b.hasController
    ensures Quiet(s.b, Do(s, step).b)
  {
  }

  lemma QuietStep(start: State, s: World, step: Step, s': World)
    requires Quiet(start, s.b) && s.b.cut.Cut? && s'.b.cut.Cut? && s' == Do(s, step)
    ensures Quiet(start, s'.b)
  {
    var b, b' := s.b, s'.b;
    if b'.twilio != b.twilio {
      var e := b'.twilio[|b.twilio|];
      assert b'.twilio == b.twilio + [e];
      MediaWritesFramed(b.twilio, [e], |b.twilio|);
    }
  }

  predicate Cutting(steps: seq<Step>, k: nat)
    requires k <= |steps|
  {
    Exec(steps[..k]).b.cut.Cut?
  }

  lemma {:induction false} QuietWhileCutting(steps: seq<Step>, i: nat, j: nat)
    requires i < j <= |steps| && steps[i].SpeechStarted?
    requires Enabled(Exec(steps[..i]), steps[i]) && Exec(steps[..i]).b.hasController
    requires forall k | i < k <= j :: Cutting(steps, k)
    ensures Quiet(Exec(steps[..i]).b, Exec(steps[..j]).b)
    decreases j
  {
    ExecPrefix(steps, j - 1);
    if j > i + 1 {
      QuietWhileCutting(steps, i, j - 1);
      assert Cutting(steps, j) && Cutting(steps, j - 1);
      QuietStep(Exec(steps[..i]).b, Exec(steps[..j - 1]), steps[j - 1], Exec(steps[..j]));
    } else {
      QuietStart(Exec(steps[..i]), steps[i]);
    }
  }

  /**
   From the moment the caller's interruption empties the queue until it returns, the
   writer sends no media except the frame it had already taken, if it had one.
   */
  lemma SilentWhileCutting(steps: seq<Step>, i: nat, j: nat)
    requires i < j <= |steps| && steps[i].SpeechStarted?
    requires Enabled(Exec(steps[..i]), steps[i]) && Exec(steps[..i]).b.hasController
    requires forall k | i < k <= j :: Cutting(steps, k)
    ensures var start, now := Exec(steps[..i]).b, Exec(steps[..j]).b;
            && now.queue == []
            && AllMedia(now) + HeldFrames(now) <= AllMedia(start) + HeldFrames(start)
            && AllMedia(now) <= AllMedia(start) + 1
  {
    QuietWhileCutting(steps, i, j);
  }

  // -- The queue --------------------------------------------------------

  /** Frame conservation, the queue's shape, and what a drain waits for. */
  lemma QueueTheorem(steps: seq<Step>)
    ensures var s := Exec(steps);
            var b := s.b;
            && |b.queue| <= 200
            && (forall i | 0 <= i < |b.queue| :: b.queue[i].mark == b.markSeq - |b.queue| + 1 + i)
            && b.markSeq == b.framesToCaller + b.framesDropped + s.m.discarded + |b.queue| + b.InFlight() + s.m.lost
            && s.m.lost <= 1
            && b.unfinished == |b.queue| + b.InFlight()
            && (b.unfinished == 0 <==> b.queue == [] && !b.writer.Busy())
  {
    InvHolds(steps);
  }

  // -- The wire ---------------------------------------------------------

  /** Everything the writer sent, in order: the log without the clears. */
  function Speech(log: seq<ToTwilio>): seq<ToTwilio> {
    if log == [] then []
    else Speech(log[..|log| - 1]) + (if log[|log| - 1].Clear? then [] else [log[|log| - 1]])
  }

  lemma {:induction false} SpeechFromLog(log: seq<ToTwilio>, k: nat)
    requires k < |Speech(log)|
    ensures !Speech(log)[k].Clear?
    ensures exists i :: 0 <= i < |log| && log[i] == Speech(log)[k]
  {
    var last := |log| - 1;
    if k < |Speech(log[..last])| {
      SpeechFromLog(log[..last], k);
      var i :| 0 <= i < last && log[..last][i] == Speech(log[..last])[k];
      assert log[i] == Speech(log)[k];
    } else {
      assert log[last] == Speech(log)[k];
    }
  }

  /** Media and mark alternate, each mark naming the media before it, in increasing order. */
  predicate Alternates(speech: seq<ToTwilio>) {
    && (forall k | 0 <= k < |speech| && k % 2 == 0 :: speech[k].Media?)
    && (forall k | 0 < k < |speech| && k % 2 == 1 :: speech[k] == Mark(SpeechMark(speech[k - 1])))
    && (forall k | 1 < k < |speech| && k % 2 == 0 :: SpeechMark(speech[k - 2]) < SpeechMark(speech[k]))
  }

  function SpeechMark(e: ToTwilio): nat {
    if e.Clear? then 0 else e.mark
  }

  predicate SpeechInv(b: State) {
    SpeechShape(Speech(b.twilio), b.writer)
  }

  predicate SpeechShape(speech: seq<ToTwilio>, writer: Writer) {
    && Alternates(speech)
    && (writer.Waiting? || writer.Holding? || writer.MarkWritten? ==> |speech| % 2 == 0)
    && (writer.MediaWritten? ==> |speech| % 2 == 1 && SpeechMark(speech[|speech| - 1]) == writer.item.mark)
  }

  lemma SpeechAppend(log: seq<ToTwilio>, e: ToTwilio)
    ensures Speech(log + [e]) == if e.Clear? then Speech(log) else Speech(log) + [e]
  {
    assert (log + [e])[..|log|] == log;
  }

  lemma SpeechInvMedia(b: State)
    requires LogInv(b) && SpeechInv(b) && b.writer.Holding?
    ensures SpeechInv(b.MediaSent())
  {
    SpeechAppend(b.twilio, Media(b.writer.item.mark, b.writer.item.payload));
    SpeechBelow(b);
    ShapeMedia(Speech(b.twilio), b.writer.item);
  }

  lemma SpeechBelow(b: State)
    requires LogInv(b) && b.writer.Holding?
    ensures |Speech(b.twilio)| > 1 ==> SpeechMark(Speech(b.twilio)[|Speech(b.twilio)| - 2]) < b.writer.item.mark
  {
    var k := |Speech(b.twilio)| - 2;
    if k >= 0 {
      SpeechFromLog(b.twilio, k);
    }
  }

  lemma ShapeMedia(speech: seq<ToTwilio>, item: OutboundAudio)
    requires SpeechShape(speech, Holding(item))
    requires |speech| > 1 ==> SpeechMark(speech[|speech| - 2]) < item.mark
    ensures SpeechShape(speech + [Media(item.mark, item.payload)], MediaWritten(item))
  {
    var more := speech + [Media(item.mark, item.payload)];
    AlternatesMedia(speech, Media(item.mark, item.payload));
    assert more[|speech|] == Media(item.mark, item.payload);
  }

  lemma AlternatesMedia(speech: seq<ToTwilio>, e: ToTwilio)
    requires Alternates(speech) && |speech| % 2 == 0 && e.Media?
    requires |speech| > 1 ==> SpeechMark(speech[|speech| - 2]) < e.mark
    ensures Alternates(speech + [e])
  {
  }

  lemma SpeechInvMark(b: State)
    requires SpeechInv(b) && b.writer.MediaWritten?
    ensures SpeechInv(b.MarkSent())
  {
    SpeechAppend(b.twilio, Mark(b.writer.item.mark));
    ShapeMark(Speech(b.twilio), b.writer.item);
  }

  lemma ShapeMark(speech: seq<ToTwilio>, item: OutboundAudio)
    requires SpeechShape(speech, MediaWritten(item))
    ensures SpeechShape(speech + [Mark(item.mark)], MarkWritten(item))
  {
    AlternatesMark(speech, Mark(item.mark));
  }

  lemma AlternatesMark(speech: seq<ToTwilio>, e: ToTwilio)
    requires Alternates(speech) && |speech| % 2 == 1 && e == Mark(SpeechMark(speech[|speech| - 1]))
    ensures Alternates(speech + [e])
  {
  }

  lemma SpeechInvQuiet(b: State, b': State)
    requires SpeechInv(b) && (b'.twilio == b.twilio || b'.twilio == b.twilio + [Clear])
    requires || b'.writer == b.writer || b'.writer.Stopped?
             || (b.writer.Waiting? && b'.writer.Holding?) || (b.writer.MarkWritten? && b'.writer.Waiting?)
    ensures SpeechInv(b')
  {
    SpeechAppend(b.twilio, Clear);
    assert Speech(b'.twilio) == Speech(b.twilio);
  }

  lemma SpeechInvStep(s: World, step: Step)
    requires LogInv(s.b) && SpeechInv(s.b) && Enabled(s, step)
    ensures SpeechInv(Apply(s, step).b)
  {
    if step.WriterSendsMedia? {
      SpeechInvMedia(s.b);
    } else if step.WriterSendsMark? {
      SpeechInvMark(s.b);
    } else {
      QuietFrame(s, step);
      SpeechInvQuiet(s.b, Apply(s, step).b);
    }
  }

  lemma QuietFrame(s: World, step: Step)
    requires Enabled(s, step) && !step.WriterSendsMedia? && !step.WriterSendsMark?
    ensures var b, b' := s.b, Apply(s, step).b;
            && (b'.twilio == b.twilio || b'.twilio == b.twilio + [Clear])
            && (|| b'.writer == b.writer || b'.writer.Stopped?
                || (b.writer.Waiting? && b'.writer.Holding?) || (b.writer.MarkWritten? && b'.writer.Waiting?))
  {
  }

  lemma {:induction false} WireAlternates(steps: seq<Step>)
    ensures SpeechInv(Exec(steps).b)
  {
    if steps != [] {
      var before := steps[..|steps| - 1];
      WireAlternates(before);
      InvHolds(before);
      if Enabled(Exec(before), steps[|steps| - 1]) {
        SpeechInvStep(Exec(before), steps[|steps| - 1]);
      }
    }
  }

  // -- The ledger inside the bridge -------------------------------------

  /** What a step does to the ledger. */
  function LedgerOps(s: World, step: Step): seq<Ledger.Op<nat>> {
    if !Enabled(s, step) then []
    else match step
      case WriterRecords => [Ledger.Sent(s.b.writer.item.mark, s.b.writer.item.decodedBytes)]
      case EchoRead(x) => [Ledger.Ack(x)]
      case ItemAdded(id) => [Ledger.Start(id)]
      case CutContinues => if s.b.cut.stage == ResetLedger then [Ledger.Clear(None)] else []
      case _ => []
  }

  function LedgerTrace(steps: seq<Step>): seq<Ledger.Op<nat>> {
    if steps == [] then []
    else LedgerTrace(steps[..|steps| - 1]) + LedgerOps(Exec(steps[..|steps| - 1]), steps[|steps| - 1])
  }

  predicate RecordedBelow(b: State, ops: seq<Ledger.Op<nat>>) {
    forall i | 0 <= i < |ops| && ops[i].Sent? ::
      && ops[i].mark <= b.markSeq - |b.queue|
      && (b.writer.Busy() ==> ops[i].mark < b.writer.item.mark)
  }

  lemma RecordedBelowStep(s: World, step: Step, ops: seq<Ledger.Op<nat>>)
    requires QueueInv(s) && Ledger.FreshAndPositive(ops) && RecordedBelow(s.b, ops)
    ensures Ledger.FreshAndPositive(ops + LedgerOps(s, step))
    ensures RecordedBelow(Do(s, step).b, ops + LedgerOps(s, step))
  {
  }

  lemma LedgerStep(s: World, step: Step, ops: seq<Ledger.Op<nat>>)
    requires s.b.ledger == Ledger.Replay(ops).ledger
    ensures Do(s, step).b.ledger == Ledger.Replay(ops + LedgerOps(s, step)).ledger
  {
    var more := LedgerOps(s, step);
    LedgerOpsTell(s, step);
    if more == [] {
      assert ops + more == ops;
    } else {
      assert (ops + more)[..|ops + more| - 1] == ops;
    }
  }

  lemma LedgerOpsTell(s: World, step: Step)
    ensures var more, before, after := LedgerOps(s, step), s.b.ledger, Do(s, step).b.ledger;
            || (more == [] && after == before)
            || (|more| == 1 && after == Ledger.Apply(Ledger.Tracked(before, 0, []), more[0]).ledger)
  {
  }

  /**
   Within the bridge the ledger sees fresh marks and positive sizes only, so in every
   run each outstanding mark is the last reset's baseline plus the sizes recorded since.
   */
  lemma BridgeLedgerIsARun(steps: seq<Step>)
    ensures Exec(steps).b.ledger == Ledger.Replay(LedgerTrace(steps)).ledger
    ensures Ledger.CumulativeTotals(Ledger.Replay(LedgerTrace(steps)))
  {
    BridgeTrace(steps);
    Ledger.LedgerRun(LedgerTrace(steps));
  }

  lemma {:induction false} BridgeTrace(steps: seq<Step>)
    ensures Ledger.FreshAndPositive(LedgerTrace(steps)) && RecordedBelow(Exec(steps).b, LedgerTrace(steps))
    ensures Exec(steps).b.ledger == Ledger.Replay(LedgerTrace(steps)).ledger
  {
    if steps != [] {
      var before, step := steps[..|steps| - 1], steps[|steps| - 1];
      BridgeTrace(before);
      InvHolds(before);
      RecordedBelowStep(Exec(before), step, LedgerTrace(before));
      LedgerStep(Exec(before), step, LedgerTrace(before));
    }
  }
}
