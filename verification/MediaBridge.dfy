/**
 The relay between the model and Twilio, cut at its await points. `State` has one
 function for each stretch of code that runs without yielding; `MediaBridge` is the
 object whose methods are those stretches.

 Marks are named by their sequence number. Both sockets are the logs of what was
 written to them.
 */
module Bridge {
  import opened Common
  import Base64
  import Ledger

  const OUTBOUND_QUEUE_MAX := 200

  datatype OutboundAudio = OutboundAudio(mark: nat, payload: string, decodedBytes: int)

  /** `Media` remembers which frame it came from; only its payload travels. */
  datatype ToTwilio = Media(mark: nat, payload: string) | Mark(mark: nat) | Clear

  datatype ToModel = CancelResponse | Truncate(itemId: string, audioEndMs: nat)

  /** Where `_pump_outbound` stands. `Stopped` is after a send raised. */
  datatype Writer =
    | Waiting
    | Holding(item: OutboundAudio)
    | MediaWritten(item: OutboundAudio)
    | MarkWritten(item: OutboundAudio)
    | Stopped
  {
    predicate Busy() { !Waiting? && !Stopped? }
  }

  /** The next thing an interruption in progress will do. */
  datatype CutStage = SendClear | SendCancel | SendTruncate | ResetLedger | Report

  datatype Cut =
    | NoCut
    | Cut(itemId: Option<string>, audioEndMs: nat, discardedMs: nat, drained: bool, stage: CutStage)
  {
    predicate Truncates() { Cut? && itemId.Some? && audioEndMs > 0 }
  }

  datatype State = State(
    streamSid: string,
    hasController: bool,
    markSeq: nat,
    queue: seq<OutboundAudio>,
    unfinished: int,
    writer: Writer,
    cut: Cut,
    listening: bool,
    ledger: Ledger.State<nat>,
    framesToCaller: nat,
    framesDropped: nat,
    marksAcked: nat,
    bargeIns: nat,
    twilio: seq<ToTwilio>,
    model: seq<ToModel>)
  {
    function InFlight(): nat { if writer.Busy() then 1 else 0 }

    /** The queue's unfinished-task count is what is queued plus what the writer holds. */
    predicate QueueAccounted() {
      unfinished == |queue| + InFlight()
    }

    function StreamStarted(sid: string): State {
      this.(streamSid := sid, hasController := true)
    }

    function AudioSent(delta: string): State {
      if delta == "" || streamSid == "" then this
      else
        var item := OutboundAudio(markSeq + 1, delta, Base64.DecodedSize(delta));
        if |queue| < OUTBOUND_QUEUE_MAX then
          this.(markSeq := markSeq + 1, queue := queue + [item], unfinished := unfinished + 1)
        else
          this.(markSeq := markSeq + 1, queue := queue[1..] + [item], framesDropped := framesDropped + 1)
    }

    function ItemStarted(id: string): State {
      this.(ledger := ledger.ItemStarted(id))
    }

    function MarkEchoed(mark: nat): State {
      this.(ledger := ledger.Acked(mark),
            marksAcked := if mark in ledger.marks then marksAcked + 1 else marksAcked)
    }

    function FrameTaken(): State
      requires writer.Waiting? && queue != []
    {
      this.(queue := queue[1..], writer := Holding(queue[0]))
    }

    function MediaSent(): State
      requires writer.Holding?
    {
      this.(twilio := twilio + [Media(writer.item.mark, writer.item.payload)],
            writer := MediaWritten(writer.item))
    }

    function MarkSent(): State
      requires writer.MediaWritten?
    {
      this.(twilio := twilio + [Mark(writer.item.mark)], writer := MarkWritten(writer.item))
    }

    function FrameRecorded(): State
      requires writer.MarkWritten?
    {
      this.(ledger := ledger.ChunkSent(writer.item.mark, writer.item.decodedBytes),
            framesToCaller := framesToCaller + 1,
            unfinished := unfinished - 1,
            writer := Waiting)
    }

    function WriterFailed(): State
      requires writer.Busy()
    {
      this.(unfinished := unfinished - 1, writer := Stopped)
    }

    /** `drain` is the caller's interruption; without it, the safety path. */
    function CutStarted(drain: bool): State
      requires cut.NoCut?
    {
      if !hasController then this
      else
        this.(queue := if drain then [] else queue,
              unfinished := if drain then unfinished - |queue| else unfinished,
              cut := Cut(ledger.itemId, ledger.PlayedMs(), ledger.UnplayedMs(), drain, SendClear))
    }

    function CutAdvanced(): State
      requires cut.Cut?
    {
      match cut.stage
      case SendClear =>
        this.(twilio := twilio + [Clear], cut := cut.(stage := SendCancel))
      case SendCancel =>
        this.(model := model + [CancelResponse],
              cut := cut.(stage := if cut.Truncates() then SendTruncate else ResetLedger))
      case SendTruncate =>
        this.(model := if cut.itemId.Some? then model + [Truncate(cut.itemId.value, cut.audioEndMs)] else model,
              cut := cut.(stage := ResetLedger))
      case ResetLedger =>
        this.(ledger := ledger.Reset(None), cut := cut.(stage := Report))
      case Report =>
        this.(bargeIns := if cut.drained && cut.Truncates() then bargeIns + 1 else bargeIns, cut := NoCut)
    }

    /** A send inside the cut raised: the exception ends `_pump_openai`. */
    function CutFailed(): State {
      this.(listening := false)
    }
  }

  function Initial(): State {
    State("", false, 0, [], 0, Waiting, NoCut, true, Ledger.Initial(), 0, 0, 0, 0, [], [])
  }

  /** The five stages of a cut nothing interrupts. */
  function UninterruptedCut(s: State): State
    requires s.cut.Cut? && s.cut.stage == SendClear
  {
    var cancelled := s.CutAdvanced().CutAdvanced();
    var reset := if s.cut.Truncates() then cancelled.CutAdvanced().CutAdvanced() else cancelled.CutAdvanced();
    reset.CutAdvanced()
  }

  /**
   What such a cut comes to: the flush, the cancel and, when a whole millisecond of an
   item was played, one truncate with that figure. Nothing is left queued or current.
   */
  lemma UninterruptedMeans(s: State)
    requires s.cut.NoCut? && s.hasController
    ensures var e, figure := UninterruptedCut(s.CutStarted(true)), Ledger.BytesToMs(s.ledger.played - s.ledger.itemStart);
            && e.queue == [] && e.twilio == s.twilio + [Clear]
            && e.model == s.model + [CancelResponse]
                          + (if s.ledger.itemId.Some? && figure > 0 then [Truncate(s.ledger.itemId.value, figure)] else [])
            && e.ledger.itemId == None && e.ledger.marks == map[]
            && e.ledger.queued == e.ledger.played == e.ledger.itemStart == s.ledger.played
            && e.bargeIns == s.bargeIns + (if s.ledger.itemId.Some? && figure > 0 then 1 else 0)
            && e.cut.NoCut?
  {
  }

  // -- Mark names -------------------------------------------------------

  function Digits(n: nat): string {
    if n < 10 then ['0' + n as char] else Digits(n / 10) + ['0' + (n % 10) as char]
  }

  function MarkName(n: nat): string { "m" + Digits(n) }

  /** Distinct sequence numbers have distinct names, so numbers can stand for names. */
  lemma MarkNamesDistinct(a: nat, b: nat)
    requires MarkName(a) == MarkName(b)
    ensures a == b
  {
    assert MarkName(a)[1..] == Digits(a) && MarkName(b)[1..] == Digits(b);
    DigitsDistinct(a, b);
  }

  lemma {:induction false} DigitsDistinct(a: nat, b: nat)
    requires Digits(a) == Digits(b)
    ensures a == b
  {
    var da, db := Digits(a), Digits(b);
    assert da[|da| - 1] == '0' + (a % 10) as char && db[|db| - 1] == '0' + (b % 10) as char;
    if a >= 10 && b >= 10 {
      assert da[..|da| - 1] == Digits(a / 10) && db[..|db| - 1] == Digits(b / 10);
      DigitsDistinct(a / 10, b / 10);
    }
  }

  // -- The object -------------------------------------------------------

  class MediaBridge {
    var streamSid: string
    var hasController: bool
    var markSeq: nat
    var queue: seq<OutboundAudio>
    var unfinished: int
    var writer: Writer
    var cut: Cut
    var listening: bool
    const ledger: Ledger.PlaybackLedger<nat>
    var framesToCaller: nat
    var framesDropped: nat
    var marksAcked: nat
    var bargeIns: nat
    var twilio: seq<ToTwilio>
    var model: seq<ToModel>

    ghost function View(): State
      reads this, ledger
    {
      State(streamSid, hasController, markSeq, queue, unfinished, writer, cut, listening, ledger.View(),
            framesToCaller, framesDropped, marksAcked, bargeIns, twilio, model)
    }

    constructor ()
      ensures View() == Initial() && fresh(ledger)
    {
      streamSid, hasController, markSeq := "", false, 0;
      queue, unfinished, writer, cut, listening := [], 0, Waiting, NoCut, true;
      framesToCaller, framesDropped, marksAcked, bargeIns := 0, 0, 0, 0;
      twilio, model := [], [];
      ledger := new Ledger.PlaybackLedger();
    }

    /** `asyncio.Queue.task_done` raises once more has been finished than was put. */
    method TaskDone()
      requires unfinished > 0
      modifies this`unfinished
      ensures unfinished == old(unfinished) - 1
    {
      unfinished := unfinished - 1;
    }

    method SendAudio(delta: string)
      requires View().QueueAccounted()
      modifies this
      ensures View() == old(View()).AudioSent(delta) && View().QueueAccounted()
    {
      if delta == "" || streamSid == "" {
        return;
      }
      markSeq := markSeq + 1;
      var item := OutboundAudio(markSeq, delta, Base64.DecodedSize(delta));
      if |queue| < OUTBOUND_QUEUE_MAX {
        queue, unfinished := queue + [item], unfinished + 1;
      } else {
        queue := queue[1..];
        TaskDone();
        framesDropped := framesDropped + 1;
        queue, unfinished := queue + [item], unfinished + 1;
      }
    }

    /** The pump's turn while nothing else runs: take a frame, write it, mark it, record it. */
    method PumpFrame()
      requires writer.Waiting? && queue != [] && View().QueueAccounted()
      modifies this, ledger
      ensures View() == old(View()).FrameTaken().MediaSent().MarkSent().FrameRecorded()
      ensures View().QueueAccounted()
    {
      GetFrame();
      WriteMedia();
      WriteMark();
      RecordFrame();
    }

    method GetFrame()
      requires writer.Waiting? && queue != []
      modifies this
      ensures View() == old(View()).FrameTaken()
    {
      writer, queue := Holding(queue[0]), queue[1..];
    }

    method WriteMedia()
      requires writer.Holding?
      modifies this
      ensures View() == old(View()).MediaSent()
    {
      twilio := twilio + [Media(writer.item.mark, writer.item.payload)];
      writer := MediaWritten(writer.item);
    }

    method WriteMark()
      requires writer.MediaWritten?
      modifies this
      ensures View() == old(View()).MarkSent()
    {
      twilio := twilio + [Mark(writer.item.mark)];
      writer := MarkWritten(writer.item);
    }

    method RecordFrame()
      requires writer.MarkWritten? && View().QueueAccounted()
      modifies this, ledger
      ensures View() == old(View()).FrameRecorded() && View().QueueAccounted()
    {
      ledger.OnChunkSent(writer.item.mark, writer.item.decodedBytes);
      framesToCaller := framesToCaller + 1;
      TaskDone();
      writer := Waiting;
    }

    method OnMark(mark: nat)
      modifies this, ledger
      ensures View() == old(View()).MarkEchoed(mark)
    {
      var counted := ledger.OnMarkAck(mark);
      if counted {
        marksAcked := marksAcked + 1;
      }
    }

    method OnItemAdded(id: string)
      modifies this, ledger
      ensures View() == old(View()).ItemStarted(id)
    {
      ledger.OnItemStarted(id);
    }

    method DiscardQueuedAudio() returns (dropped: nat)
      requires View().QueueAccounted()
      modifies this
      ensures dropped == |old(queue)|
      ensures View() == old(View()).(queue := [], unfinished := old(unfinished) - |old(queue)|)
    {
      dropped := 0;
      while queue != []
        invariant dropped + |queue| == |old(queue)|
        invariant unfinished == |queue| + old(View()).InFlight()
        invariant View() == old(View()).(queue := queue, unfinished := unfinished)
        decreases |queue|
      {
        queue := queue[1..];
        TaskDone();
        dropped := dropped + 1;
      }
    }

    /** Empty our own queue, then read the ledger: nothing is awaited in between. */
    method StartCut(drain: bool)
      requires cut.NoCut? && View().QueueAccounted()
      modifies this
      ensures View() == old(View()).CutStarted(drain) && View().QueueAccounted()
      ensures hasController ==>
                && cut.Cut? && cut.itemId == ledger.currentItemId
                && cut.audioEndMs == Ledger.BytesToMs(ledger.playedBytes - ledger.itemStartOffset)
                && cut.discardedMs == Ledger.BytesToMs(ledger.queuedBytes - ledger.playedBytes)
    {
      if !hasController {
        return;
      }
      if drain {
        var discarded := DiscardQueuedAudio();
      }
      var endMs := Ledger.BytesToMs(ledger.playedBytes - ledger.itemStartOffset);
      var unplayedMs := Ledger.BytesToMs(ledger.queuedBytes - ledger.playedBytes);
      cut := Cut(ledger.currentItemId, endMs, unplayedMs, drain, SendClear);
    }

    method AdvanceCut()
      requires cut.Cut?
      modifies this, ledger
      ensures View() == old(View()).CutAdvanced()
    {
      match cut.stage {
        case SendClear =>
          twilio := twilio + [Clear];
          cut := cut.(stage := SendCancel);
        case SendCancel =>
          model := model + [CancelResponse];
          cut := cut.(stage := if cut.Truncates() then SendTruncate else ResetLedger);
        case SendTruncate =>
          if cut.itemId.Some? {
            model := model + [Truncate(cut.itemId.value, cut.audioEndMs)];
          }
          cut := cut.(stage := ResetLedger);
        case ResetLedger =>
          ledger.BeginNewItem(None);
          cut := cut.(stage := Report);
        case Report =>
          if cut.drained && cut.Truncates() {
            bargeIns := bargeIns + 1;
          }
          cut := NoCut;
      }
    }

    /**
     A whole interruption with nothing in between: `clear` reaches Twilio, then the
     model hears the cancel and, when part of an item was played, one truncate that
     carries the figure read before anything was sent. The ledger ends with no item
     and both watermarks on the played count.
     */
    method OnBargeIn()
      requires cut.NoCut? && View().QueueAccounted()
      modifies this, ledger
      ensures !old(hasController) ==> View() == old(View())
      ensures old(hasController) ==> View() == UninterruptedCut(old(View()).CutStarted(true))
      ensures old(hasController) ==> queue == [] && twilio == old(twilio) + [Clear]
      ensures old(hasController) ==>
                var figure := Ledger.BytesToMs(old(ledger.playedBytes - ledger.itemStartOffset));
                model == old(model) + [CancelResponse]
                         + if old(ledger.currentItemId).Some? && figure > 0
                           then [Truncate(old(ledger.currentItemId).value, figure)] else []
      ensures old(hasController) ==> ledger.currentItemId == None && ledger.marks == map[]
      ensures old(hasController) ==>
                ledger.queuedBytes == ledger.playedBytes == ledger.itemStartOffset == old(ledger.playedBytes)
    {
      StartCut(true);
      if !hasController {
        return;
      }
      UninterruptedMeans(old(View()));
      AdvanceCut();
      AdvanceCut();
      if cut.stage == SendTruncate {
        AdvanceCut();
      }
      AdvanceCut();
      AdvanceCut();
    }
  }
}
