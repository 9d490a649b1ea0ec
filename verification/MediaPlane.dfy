/**
 The bridge running against Twilio: every interleaving of the model's events, the
 outbound writer, the mark reader and Twilio itself. `Exec` replays any schedule;
 the theorems quantify over all of them.
 */
module Plane {
  import opened Common
  import opened Bridge
  import Base64

  /**
   Twilio as an index into everything written to it. Log entries below `received`
   have arrived; playback stands `offset` bytes into entry `next`. `echoed` holds
   every mark Twilio may return, at any time and any number of times, or never.
   */
  datatype Twilio = Twilio(received: nat, next: nat, offset: nat, echoed: set<nat>)

  /**
   What an observer notes. The current item started when the log had `start` entries and
   `slack` bytes of earlier audio were queued or in flight; frames numbered above `floor`
   were queued since. Of those, `others` carry audio of another item, `othersQueued` bytes
   in all. The caller has heard `heard` bytes of the item's own frames and `othersHeard`
   of the others. `lostBytes` were written but will never be recorded.
   */
  datatype Monitor = Monitor(
    floor: nat,
    start: nat,
    slack: int,
    heard: int,
    others: set<nat>,
    othersHeard: int,
    othersQueued: int,
    lostBytes: int,
    discarded: nat,
    lost: nat)
  {
    /** Everything heard of what was queued since the item started. */
    function Since(): int { heard + othersHeard }

    function ItemStarted(floor: nat, start: nat, slack: int): Monitor {
      this.(floor := floor, start := start, slack := slack, heard := 0,
            others := {}, othersHeard := 0, othersQueued := 0, lostBytes := 0)
    }

    function OtherQueued(mark: nat, bytes: nat): Monitor {
      this.(others := others + {mark}, othersQueued := othersQueued + bytes)
    }

    function Played(mark: nat, bytes: nat): Monitor {
      if mark in others then this.(othersHeard := othersHeard + bytes)
      else if mark > floor then this.(heard := heard + bytes)
      else this
    }
  }

  datatype World = World(b: State, t: Twilio, m: Monitor)

  datatype Step =
    | StreamStart(sid: string)
    | AudioDelta(item: string, payload: string)
    | ItemAdded(id: string)
    | SpeechStarted
    | SafetyCut
    | CutContinues
    | CutRaises
    | WriterTakes
    | WriterSendsMedia
    | WriterSendsMark
    | WriterRecords
    | WriterRaises
    | TwilioReceives
    | TwilioPlays(bytes: nat)
    | EchoRead(mark: nat)

  function AudioBytes(payload: string): nat {
    if Base64.Valid(payload) then |Base64.Decode(payload)| else 0
  }

  /** Bytes of queued frames numbered at most `floor`. */
  function OldBytes(queue: seq<OutboundAudio>, floor: nat): int {
    if queue == [] then 0
    else (if queue[0].mark <= floor then queue[0].decodedBytes else 0) + OldBytes(queue[1..], floor)
  }

  /** Bytes of earlier audio the ledger has yet to record: queued, or held by the writer. */
  function OldPending(b: State, floor: nat): int {
    OldBytes(b.queue, floor)
    + if b.writer.Busy() && b.writer.item.mark <= floor then b.writer.item.decodedBytes else 0
  }

  /** Bytes of the current item written to Twilio but not yet recorded. */
  function Unrecorded(b: State, floor: nat): int {
    if (b.writer.MediaWritten? || b.writer.MarkWritten?) && b.writer.item.mark > floor
    then b.writer.item.decodedBytes else 0
  }

  function EntryBytes(e: ToTwilio, floor: nat): nat {
    if e.Media? && e.mark > floor then AudioBytes(e.payload) else 0
  }

  /** Bytes of the current item among the first `n` log entries. */
  function ItemBytes(log: seq<ToTwilio>, n: nat, floor: nat): nat
    requires n <= |log|
  {
    if n == 0 then 0 else ItemBytes(log, n - 1, floor) + EntryBytes(log[n - 1], floor)
  }

  function MarksIn(log: seq<ToTwilio>, lo: nat, hi: nat): set<nat>
    requires hi <= |log|
  {
    set i | lo <= i < hi && log[i].Mark? :: log[i].mark
  }

  /** The model's events are handled one at a time: none starts while a cut is under way. */
  predicate Enabled(s: World, step: Step) {
    match step
    case StreamStart(_) => true
    case AudioDelta(_, p) => s.b.listening && s.b.cut.NoCut? && Base64.Valid(p)
    case ItemAdded(_) => s.b.listening && s.b.cut.NoCut?
    case SpeechStarted => s.b.listening && s.b.cut.NoCut?
    case SafetyCut => s.b.listening && s.b.cut.NoCut?
    case CutContinues => s.b.listening && s.b.cut.Cut?
    case CutRaises => s.b.listening && s.b.cut.Cut?
    case WriterTakes => s.b.writer.Waiting? && s.b.queue != []
    case WriterSendsMedia => s.b.writer.Holding?
    case WriterSendsMark => s.b.writer.MediaWritten?
    case WriterRecords => s.b.writer.MarkWritten?
    case WriterRaises => s.b.writer.Busy()
    case TwilioReceives => s.t.received < |s.b.twilio|
    case TwilioPlays(k) =>
      && s.t.next < s.t.received <= |s.b.twilio|
      && (match s.b.twilio[s.t.next]
          case Media(_, p) => 0 < k <= AudioBytes(p) - s.t.offset
          case Mark(_) => true
          case Clear => false)
    case EchoRead(x) => x in s.t.echoed
  }

  function Apply(s: World, step: Step): World
    requires Enabled(s, step)
  {
    match step
    case StreamStart(sid) => s.(b := s.b.StreamStarted(sid))
    case AudioDelta(item, p) =>
      var b := s.b.AudioSent(p);
      s.(b := b,
         m := if b.markSeq == s.b.markSeq || s.b.ledger.itemId == Some(item) then s.m
              else s.m.OtherQueued(b.markSeq, AudioBytes(p)))
    case ItemAdded(id) =>
      s.(b := s.b.ItemStarted(id), m := s.m.ItemStarted(s.b.markSeq, |s.b.twilio|, OldPending(s.b, s.b.markSeq)))
    case SpeechStarted =>
      s.(b := s.b.CutStarted(true),
         m := s.m.(discarded := if s.b.hasController then s.m.discarded + |s.b.queue| else s.m.discarded))
    case SafetyCut => s.(b := s.b.CutStarted(false))
    case CutContinues => s.(b := s.b.CutAdvanced())
    case CutRaises => s.(b := s.b.CutFailed())
    case WriterTakes => s.(b := s.b.FrameTaken())
    case WriterSendsMedia => s.(b := s.b.MediaSent())
    case WriterSendsMark => s.(b := s.b.MarkSent())
    case WriterRecords => s.(b := s.b.FrameRecorded())
    case WriterRaises =>
      s.(b := s.b.WriterFailed(),
         m := s.m.(lost := s.m.lost + 1, lostBytes := s.m.lostBytes + Unrecorded(s.b, s.m.floor)))
    case TwilioReceives =>
      var n := s.t.received;
      if s.b.twilio[n].Clear? then
        // The buffer is flushed: its audio is dropped and its marks come back.
        s.(t := Twilio(n + 1, n + 1, 0, s.t.echoed + MarksIn(s.b.twilio, s.t.next, n)))
      else s.(t := s.t.(received := n + 1))
    case TwilioPlays(k) =>
      var e := s.b.twilio[s.t.next];
      if e.Mark? then
        s.(t := s.t.(next := s.t.next + 1, offset := 0, echoed := s.t.echoed + {e.mark}))
      else
        var done := s.t.offset + k == AudioBytes(e.payload);
        s.(t := s.t.(next := if done then s.t.next + 1 else s.t.next,
                     offset := if done then 0 else s.t.offset + k),
           m := s.m.Played(e.mark, k))
    case EchoRead(x) => s.(b := s.b.MarkEchoed(x))
  }

  function Start(): World {
    World(Initial(), Twilio(0, 0, 0, {}), Monitor(0, 0, 0, 0, {}, 0, 0, 0, 0, 0))
  }

  function Do(s: World, step: Step): World {
    if Enabled(s, step) then Apply(s, step) else s
  }

  /** The state after any schedule; a step that cannot happen is skipped. */
  function Exec(steps: seq<Step>): World {
    if steps == [] then Start() else Do(Exec(steps[..|steps| - 1]), steps[|steps| - 1])
  }

  // -- Sums -------------------------------------------------------------

  lemma {:induction false} ItemBytesFramed(log: seq<ToTwilio>, more: seq<ToTwilio>, n: nat, floor: nat)
    requires n <= |log|
    ensures ItemBytes(log + more, n, floor) == ItemBytes(log, n, floor)
  {
    if n > 0 {
      ItemBytesFramed(log, more, n - 1, floor);
    }
  }

  lemma {:induction false} ItemBytesMonotone(log: seq<ToTwilio>, i: nat, j: nat, floor: nat)
    requires i <= j <= |log|
    ensures ItemBytes(log, i, floor) <= ItemBytes(log, j, floor)
    ensures (forall k | i <= k < j :: !log[k].Media?) ==> ItemBytes(log, i, floor) == ItemBytes(log, j, floor)
    decreases j
  {
    if i < j {
      ItemBytesMonotone(log, i, j - 1, floor);
    }
  }

  lemma {:induction false} ItemBytesZero(log: seq<ToTwilio>, n: nat, floor: nat)
    requires n <= |log|
    requires forall i | 0 <= i < n && log[i].Media? :: log[i].mark <= floor
    ensures ItemBytes(log, n, floor) == 0
  {
    if n > 0 {
      ItemBytesZero(log, n - 1, floor);
    }
  }

  lemma {:induction false} OldBytesAppend(queue: seq<OutboundAudio>, item: OutboundAudio, floor: nat)
    requires item.mark > floor
    ensures OldBytes(queue + [item], floor) == OldBytes(queue, floor)
  {
    if queue != [] {
      assert (queue + [item])[1..] == queue[1..] + [item];
      OldBytesAppend(queue[1..], item, floor);
    }
  }

  lemma {:induction false} OldBytesNonNegative(queue: seq<OutboundAudio>, floor: nat)
    requires forall i | 0 <= i < |queue| :: queue[i].decodedBytes > 0
    ensures OldBytes(queue, floor) >= 0
  {
    if queue != [] {
      OldBytesNonNegative(queue[1..], floor);
    }
  }

  // -- The queue and frame conservation ---------------------------------

  predicate Sized(item: OutboundAudio) {
    item.decodedBytes == AudioBytes(item.payload) > 0
  }

  predicate QueueInv(s: World) {
    var b := s.b;
    && |b.queue| <= OUTBOUND_QUEUE_MAX && Block(b.queue, b.markSeq)
    && (b.writer.Busy() ==> Sized(b.writer.item) && b.writer.item.mark <= b.markSeq - |b.queue|)
    && b.QueueAccounted()
    && b.markSeq == b.framesToCaller + b.framesDropped + s.m.discarded + |b.queue| + b.InFlight() + s.m.lost
    && s.m.lost == if b.writer.Stopped? then 1 else 0
  }

  /** A contiguous block of marks ending at `last`, each frame the size of its audio. */
  predicate Block(queue: seq<OutboundAudio>, last: nat) {
    && |queue| <= last
    && forall i | 0 <= i < |queue| :: queue[i].mark == last - |queue| + 1 + i && Sized(queue[i])
  }

  lemma BlockGrows(queue: seq<OutboundAudio>, last: nat, item: OutboundAudio)
    requires Block(queue, last) && item.mark == last + 1 && Sized(item)
    ensures Block(queue + [item], last + 1)
    ensures queue != [] ==> Block(queue[1..] + [item], last + 1)
  {
  }

  /** The queue's shape after a push, below the ceiling and at it. */
  lemma PushedShape(b: State, payload: string)
    requires Block(b.queue, b.markSeq) && |b.queue| <= OUTBOUND_QUEUE_MAX
    requires b.streamSid != "" && payload != "" && Base64.Valid(payload)
    ensures var b' := b.AudioSent(payload);
            && b'.markSeq == b.markSeq + 1 && Block(b'.queue, b'.markSeq) && b'.writer == b.writer
            && b'.framesToCaller == b.framesToCaller
            && if |b.queue| < OUTBOUND_QUEUE_MAX then
                 |b'.queue| == |b.queue| + 1 && b'.unfinished == b.unfinished + 1 && b'.framesDropped == b.framesDropped
               else
                 |b'.queue| == |b.queue| && b'.unfinished == b.unfinished && b'.framesDropped == b.framesDropped + 1
  {
    Base64.DecodedSizeExact(payload);
    BlockGrows(b.queue, b.markSeq, OutboundAudio(b.markSeq + 1, payload, Base64.DecodedSize(payload)));
  }

  lemma QueueInvAudio(s: World, item: string, payload: string)
    requires QueueInv(s) && Enabled(s, AudioDelta(item, payload))
    ensures QueueInv(Apply(s, AudioDelta(item, payload)))
  {
    if payload != "" && s.b.streamSid != "" {
      PushedShape(s.b, payload);
    }
  }

  lemma QueueInvWriter(s: World, step: Step)
    requires QueueInv(s) && Enabled(s, step)
    requires step.WriterTakes? || step.WriterSendsMedia? || step.WriterSendsMark? || step.WriterRecords? || step.WriterRaises?
    ensures QueueInv(Apply(s, step))
  {
  }

  lemma QueueInvStep(s: World, step: Step)
    requires QueueInv(s) && Enabled(s, step)
    ensures QueueInv(Apply(s, step))
  {
    if step.AudioDelta? {
      QueueInvAudio(s, step.item, step.payload);
    } else if step.WriterTakes? || step.WriterSendsMedia? || step.WriterSendsMark? || step.WriterRecords? || step.WriterRaises? {
      QueueInvWriter(s, step);
    } else if step.SpeechStarted? {
      QueueInvDrain(s);
    } else {
      QueueFrame(s, step);
    }
  }

  lemma QueueInvDrain(s: World)
    requires QueueInv(s) && Enabled(s, SpeechStarted)
    ensures QueueInv(Apply(s, SpeechStarted))
  {
  }

  lemma QueueFrame(s: World, step: Step)
    requires Enabled(s, step) && !step.AudioDelta? && !step.SpeechStarted?
    requires !step.WriterTakes? && !step.WriterSendsMedia? && !step.WriterSendsMark? && !step.WriterRecords? && !step.WriterRaises?
    ensures var s' := Apply(s, step);
            && s'.b.queue == s.b.queue && s'.b.markSeq == s.b.markSeq && s'.b.writer == s.b.writer
            && s'.b.unfinished == s.b.unfinished
            && s'.b.framesToCaller == s.b.framesToCaller && s'.b.framesDropped == s.b.framesDropped
            && s'.m.discarded == s.m.discarded && s'.m.lost == s.m.lost
  {
  }

  // -- The log and Twilio -----------------------------------------------

  predicate LogInv(b: State) {
    var log := b.twilio;
    && (forall i | 0 <= i < |log| && !log[i].Clear? :: log[i].mark <= b.markSeq - |b.queue|)
    && (forall i | 0 <= i < |log| && !log[i].Clear? && b.writer.Holding? :: log[i].mark < b.writer.item.mark)
    && (forall i | 0 <= i < |log| && log[i].Mark? && b.writer.MediaWritten? :: log[i].mark < b.writer.item.mark)
    && (forall i, j | 0 <= i < j < |log| && log[i].Mark? && log[j].Mark? :: log[i].mark < log[j].mark)
  }

  lemma LogInvAppend(b: State, e: ToTwilio, b': State)
    requires LogInv(b) && b'.twilio == b.twilio + [e]
    requires b'.markSeq == b.markSeq && b'.queue == b.queue
    requires !e.Clear? ==> e.mark <= b.markSeq - |b.queue|
    requires e.Clear? ==> b'.writer == b.writer
    requires e.Media? ==> b.writer.Holding? && b'.writer == MediaWritten(b.writer.item)
    requires e.Mark? ==> b.writer.MediaWritten? && b'.writer.MarkWritten? && e.mark == b.writer.item.mark
    ensures LogInv(b')
  {
  }

  lemma LogInvSameLog(b: State, b': State)
    requires LogInv(b) && b'.twilio == b.twilio
    requires b'.markSeq - |b'.queue| >= b.markSeq - |b.queue|
    requires b'.writer == b.writer || b'.writer.Waiting? || b'.writer.Stopped?
             || (b'.writer.Holding? && b'.writer.item.mark == b'.markSeq - |b'.queue| > b.markSeq - |b.queue|)
    ensures LogInv(b')
  {
  }

  lemma LogInvStep(s: World, step: Step)
    requires QueueInv(s) && LogInv(s.b) && Enabled(s, step)
    ensures LogInv(Apply(s, step).b)
  {
    var b, b' := s.b, Apply(s, step).b;
    if step.WriterSendsMedia? || step.WriterSendsMark? || (step.CutContinues? && b.cut.stage == SendClear) {
      LogInvAppend(b, b'.twilio[|b.twilio|], b');
    } else {
      assert b'.twilio == b.twilio;
      LogInvSameLog(b, b');
    }
  }

  /** The last frame written: its mark stands behind all the media. */
  ghost predicate MarkLast(b: State) {
    b.writer.MarkWritten? ==> exists j :: MarkAt(b, j, b.writer.item.mark) && NoMediaFrom(b, j)
  }

  ghost predicate MarkAt(b: State, j: int, x: nat) {
    0 <= j < |b.twilio| && b.twilio[j] == Mark(x)
  }

  ghost predicate NoMediaFrom(b: State, j: int) {
    forall k | 0 <= j <= k < |b.twilio| :: !b.twilio[k].Media?
  }

  lemma MarkLastStep(s: World, step: Step)
    requires MarkLast(s.b) && Enabled(s, step)
    ensures MarkLast(Apply(s, step).b)
  {
    var b, b' := s.b, Apply(s, step).b;
    if b'.writer.MarkWritten? {
      if step.WriterSendsMark? {
        assert MarkAt(b', |b.twilio|, b'.writer.item.mark) && NoMediaFrom(b', |b.twilio|);
      } else {
        var j :| MarkAt(b, j, b.writer.item.mark) && NoMediaFrom(b, j);
        assert MarkAt(b', j, b'.writer.item.mark) && NoMediaFrom(b', j);
      }
    }
  }

  predicate TwilioInv(s: World) {
    var log, t := s.b.twilio, s.t;
    && t.next <= t.received <= |log|
    && (forall i | t.next <= i < t.received :: !log[i].Clear?)
    && (t.offset > 0 ==> t.next < t.received && log[t.next].Media? && t.offset < AudioBytes(log[t.next].payload))
  }

  lemma TwilioInvStep(s: World, step: Step)
    requires TwilioInv(s) && Enabled(s, step)
    ensures TwilioInv(Apply(s, step))
  {
  }

  ghost predicate EchoedInv(s: World) {
    forall x | x in s.t.echoed :: exists j :: MarkAt(s.b, j, x)
  }

  lemma EchoedInvStep(s: World, step: Step)
    requires TwilioInv(s) && EchoedInv(s) && Enabled(s, step)
    ensures EchoedInv(Apply(s, step))
  {
    var s' := Apply(s, step);
    forall x | x in s'.t.echoed ensures exists j :: MarkAt(s'.b, j, x) {
      if x in s.t.echoed {
        var j :| MarkAt(s.b, j, x);
        assert MarkAt(s'.b, j, x);
      } else if step.TwilioPlays? {
        assert MarkAt(s'.b, s.t.next, x);
      } else {
        var j :| s.t.next <= j < s.t.received && s.b.twilio[j].Mark? && s.b.twilio[j].mark == x;
        assert MarkAt(s'.b, j, x);
      }
    }
  }

  // -- What the caller has heard ----------------------------------------

  /** The current item's figure still means something: no `clear` has gone out since it started. */
  predicate Active(b: State) {
    b.ledger.itemId.Some? && (b.cut.NoCut? || b.cut.stage == SendClear)
  }

  predicate MonitorInv(s: World) {
    && s.m.floor <= s.b.markSeq
    && s.m.start <= |s.b.twilio|
    && s.m.slack >= 0 && s.m.heard >= 0 && s.m.othersHeard >= 0 && s.m.lostBytes >= 0
    && (forall x | x in s.m.others :: s.m.floor < x <= s.b.markSeq)
    && (forall i | 0 <= i < s.m.start && !s.b.twilio[i].Clear? :: s.b.twilio[i].mark <= s.m.floor)
    && (s.b.cut.Cut? && s.b.cut.stage == Report ==> s.b.ledger.itemId.None?)
  }

  lemma MonitorInvStep(s: World, step: Step)
    requires QueueInv(s) && LogInv(s.b) && MonitorInv(s) && Enabled(s, step)
    ensures MonitorInv(Apply(s, step))
  {
    if step.ItemAdded? {
      OldBytesNonNegative(s.b.queue, s.b.markSeq);
    } else {
      MonitorFrame(s, step);
    }
  }

  lemma MonitorFrame(s: World, step: Step)
    requires Enabled(s, step) && !step.ItemAdded? && (s.b.writer.Busy() ==> Sized(s.b.writer.item))
    ensures var s' := Apply(s, step);
            && s'.m.floor == s.m.floor && s'.m.start == s.m.start && s'.m.slack == s.m.slack
            && s'.m.heard >= s.m.heard && s'.m.othersHeard >= s.m.othersHeard && s'.m.lostBytes >= s.m.lostBytes
            && s'.b.markSeq >= s.b.markSeq
            && (s'.m.others == s.m.others || (s'.m.others == s.m.others + {s'.b.markSeq} && s'.b.markSeq > s.b.markSeq))
            && s.b.twilio <= s'.b.twilio
            && (s'.b.cut.Cut? && s'.b.cut.stage == Report ==>
                  s'.b.ledger.itemId.None? || (s'.b.cut == s.b.cut && s'.b.ledger.itemId == s.b.ledger.itemId))
  {
  }

  predicate PlayedPrefix(s: World)
    requires TwilioInv(s)
  {
    var log, t, m := s.b.twilio, s.t, s.m;
    && (forall k | m.start <= k < |log| :: !log[k].Clear?)
    && m.Since() == ItemBytes(log, t.next, m.floor)
                  + (if t.offset > 0 && log[t.next].mark > m.floor then t.offset else 0)
    && (forall j | m.start <= j < |log| && log[j].Mark? && log[j].mark in t.echoed :: j < t.next)
  }

  predicate HeardInv(s: World)
    requires TwilioInv(s)
  {
    Active(s.b) ==> PlayedPrefix(s)
  }

  lemma HeardInvAppend(s: World, s': World, e: ToTwilio)
    requires QueueInv(s) && LogInv(s.b) && TwilioInv(s) && TwilioInv(s') && EchoedInv(s) && PlayedPrefix(s)
    requires s'.b.twilio == s.b.twilio + [e] && s'.t == s.t && s'.m == s.m && !e.Clear?
    requires e.Mark? ==> s.b.writer.MediaWritten? && e.mark == s.b.writer.item.mark
    ensures PlayedPrefix(s')
  {
    ItemBytesFramed(s.b.twilio, [e], s.t.next, s.m.floor);
    assert e.Mark? ==> e.mark !in s.t.echoed;
  }

  lemma HeardInvReceive(s: World)
    requires LogInv(s.b) && TwilioInv(s) && MonitorInv(s) && PlayedPrefix(s) && Enabled(s, TwilioReceives)
    requires TwilioInv(Apply(s, TwilioReceives))
    ensures PlayedPrefix(Apply(s, TwilioReceives))
  {
    var log, n := s.b.twilio, s.t.received;
    if log[n].Clear? {
      ItemBytesZero(log, s.t.next, s.m.floor);
      ItemBytesZero(log, n + 1, s.m.floor);
    }
  }

  lemma HeardInvPlay(s: World, k: nat)
    requires LogInv(s.b) && TwilioInv(s) && MonitorInv(s) && PlayedPrefix(s) && Enabled(s, TwilioPlays(k))
    requires TwilioInv(Apply(s, TwilioPlays(k)))
    ensures PlayedPrefix(Apply(s, TwilioPlays(k)))
  {
    PlayedCounts(s.m, s.b.twilio[s.t.next].mark, k);
  }

  lemma PlayedCounts(m: Monitor, mark: nat, bytes: nat)
    requires forall x | x in m.others :: m.floor < x
    ensures m.Played(mark, bytes).Since() == m.Since() + (if mark > m.floor then bytes else 0)
  {
  }

  lemma HeardInvItem(s: World, id: string)
    requires QueueInv(s) && LogInv(s.b) && TwilioInv(s) && Enabled(s, ItemAdded(id))
    ensures TwilioInv(Apply(s, ItemAdded(id))) && PlayedPrefix(Apply(s, ItemAdded(id)))
  {
    ItemBytesZero(s.b.twilio, s.t.next, s.b.markSeq);
  }

  lemma HeardInvStep(s: World, step: Step)
    requires QueueInv(s) && LogInv(s.b) && TwilioInv(s) && EchoedInv(s) && MonitorInv(s) && HeardInv(s)
    requires Enabled(s, step)
    ensures TwilioInv(Apply(s, step)) && HeardInv(Apply(s, step))
  {
    TwilioInvStep(s, step);
    var s' := Apply(s, step);
    if step.ItemAdded? {
      HeardInvItem(s, step.id);
    } else if Active(s'.b) {
      StaysActive(s, step);
      if step.WriterSendsMedia? {
        HeardInvAppend(s, s', Media(s.b.writer.item.mark, s.b.writer.item.payload));
      } else if step.WriterSendsMark? {
        HeardInvAppend(s, s', Mark(s.b.writer.item.mark));
      } else if step.TwilioReceives? {
        HeardInvReceive(s);
      } else if step.TwilioPlays? {
        HeardInvPlay(s, step.bytes);
      } else {
        HeardFrame(s, step);
      }
    }
  }

  lemma HeardFrame(s: World, step: Step)
    requires Enabled(s, step) && Active(Apply(s, step).b) && !step.ItemAdded?
    requires !step.WriterSendsMedia? && !step.WriterSendsMark? && !step.TwilioReceives? && !step.TwilioPlays?
    ensures var s' := Apply(s, step);
            && s'.b.twilio == s.b.twilio && s'.t == s.t
            && s'.m.floor == s.m.floor && s'.m.start == s.m.start && s'.m.Since() == s.m.Since()
  {
  }

  // -- What the ledger believes -----------------------------------------

  /** A mark's total never exceeds the item's audio in front of it by more than the slack. */
  predicate MarkCovered(s: World, x: nat) {
    x in s.b.ledger.marks ==>
      forall j | 0 <= j < |s.b.twilio| && s.b.twilio[j] == Mark(x) ::
        s.b.ledger.marks[x] <= s.b.ledger.itemStart + s.m.slack + ItemBytes(s.b.twilio, j, s.m.floor)
  }

  predicate Accounted(s: World) {
    var b, l, m := s.b, s.b.ledger, s.m;
    var recorded := ItemBytes(b.twilio, |b.twilio|, m.floor) - Unrecorded(b, m.floor) - m.lostBytes;
    && (forall x :: x in l.marks ==> MarkCovered(s, x))
    && l.itemStart + recorded <= l.queued
    && l.queued + OldPending(b, m.floor) <= l.itemStart + m.slack + recorded
    && l.played <= l.itemStart + m.slack + m.Since()
  }

  predicate LedgerInv(s: World) {
    && s.b.ledger.Consistent()
    && (Active(s.b) ==> Accounted(s))
    && (s.b.cut.Cut? && s.b.cut.itemId.Some? ==> 8 * s.b.cut.audioEndMs <= s.m.Since() + s.m.slack)
  }

  lemma CoveredWhenLogGrows(s: World, s': World, e: ToTwilio)
    requires Accounted(s) && s.b.ledger.Consistent() && OldPending(s.b, s.m.floor) >= 0 && s.m.lostBytes >= 0
    requires s'.b.twilio == s.b.twilio + [e] && s'.b.ledger == s.b.ledger && s'.m == s.m
    requires Unrecorded(s.b, s.m.floor) >= 0
    ensures forall x :: x in s'.b.ledger.marks ==> MarkCovered(s', x)
  {
    var log, log', floor := s.b.twilio, s'.b.twilio, s.m.floor;
    forall x | x in s'.b.ledger.marks ensures MarkCovered(s', x) {
      forall j | 0 <= j < |log'| && log'[j] == Mark(x)
        ensures s'.b.ledger.marks[x] <= s'.b.ledger.itemStart + s'.m.slack + ItemBytes(log', j, floor)
      {
        ItemBytesFramed(log, [e], j, floor);
        assert MarkCovered(s, x);
      }
    }
  }

  lemma PendingNonNegative(s: World)
    requires QueueInv(s)
    ensures OldBytes(s.b.queue, s.m.floor) >= 0
    ensures OldPending(s.b, s.m.floor) >= 0 && Unrecorded(s.b, s.m.floor) >= 0
  {
    OldBytesNonNegative(s.b.queue, s.m.floor);
  }

  /** What writing the held frame adds to the log is exactly what becomes unrecorded. */
  lemma MediaTallies(b: State, floor: nat)
    requires b.writer.Holding? && Sized(b.writer.item)
    ensures var b' := b.MediaSent();
            && b'.twilio == b.twilio + [Media(b.writer.item.mark, b.writer.item.payload)]
            && ItemBytes(b'.twilio, |b'.twilio|, floor) - Unrecorded(b', floor)
               == ItemBytes(b.twilio, |b.twilio|, floor) - Unrecorded(b, floor)
            && OldPending(b', floor) == OldPending(b, floor)
  {
    ItemBytesFramed(b.twilio, [Media(b.writer.item.mark, b.writer.item.payload)], |b.twilio|, floor);
  }

  lemma AccountedMedia(s: World)
    requires QueueInv(s) && s.b.ledger.Consistent() && Accounted(s) && Enabled(s, WriterSendsMedia) && s.m.lostBytes >= 0
    ensures Accounted(Apply(s, WriterSendsMedia))
  {
    PendingNonNegative(s);
    MediaTallies(s.b, s.m.floor);
    CoveredWhenLogGrows(s, Apply(s, WriterSendsMedia), Media(s.b.writer.item.mark, s.b.writer.item.payload));
  }

  lemma AccountedMark(s: World)
    requires QueueInv(s) && s.b.ledger.Consistent() && Accounted(s) && Enabled(s, WriterSendsMark) && s.m.lostBytes >= 0
    ensures Accounted(Apply(s, WriterSendsMark))
  {
    var s', floor := Apply(s, WriterSendsMark), s.m.floor;
    var e := Mark(s.b.writer.item.mark);
    PendingNonNegative(s);
    CoveredWhenLogGrows(s, s', e);
    ItemBytesFramed(s.b.twilio, [e], |s.b.twilio|, floor);
    assert s'.b.twilio == s.b.twilio + [e];
  }

  lemma AccountedRecord(s: World)
    requires QueueInv(s) && LogInv(s.b) && MarkLast(s.b) && s.b.ledger.Consistent()
    requires Accounted(s) && Enabled(s, WriterRecords) && s.m.lostBytes >= 0
    ensures Accounted(Apply(s, WriterRecords))
  {
    var s', item, floor, log := Apply(s, WriterRecords), s.b.writer.item, s.m.floor, s.b.twilio;
    PendingNonNegative(s);
    var last :| MarkAt(s.b, last, item.mark) && NoMediaFrom(s.b, last);
    ItemBytesMonotone(log, last, |log|, floor);
    forall x | x in s'.b.ledger.marks ensures MarkCovered(s', x) {
      if x == item.mark {
        assert forall j | 0 <= j < |log| && log[j] == Mark(x) :: j == last;
      } else {
        assert MarkCovered(s, x);
      }
    }
  }

  lemma AccountedEcho(s: World, x: nat)
    requires LogInv(s.b) && TwilioInv(s) && EchoedInv(s) && MonitorInv(s) && s.b.ledger.Consistent()
    requires PlayedPrefix(s) && Accounted(s) && Enabled(s, EchoRead(x))
    ensures Accounted(Apply(s, EchoRead(x)))
  {
    var s', log, floor := Apply(s, EchoRead(x)), s.b.twilio, s.m.floor;
    var j :| MarkAt(s.b, j, x);
    if x in s.b.ledger.marks {
      assert MarkCovered(s, x);
      if j < s.m.start {
        ItemBytesZero(log, j, floor);
      } else {
        ItemBytesMonotone(log, j, s.t.next, floor);
      }
    }
    forall y | y in s'.b.ledger.marks ensures MarkCovered(s', y) {
      assert MarkCovered(s, y);
    }
  }

  lemma AccountedItem(s: World, id: string)
    requires QueueInv(s) && LogInv(s.b) && s.b.ledger.Consistent() && Enabled(s, ItemAdded(id))
    requires MonitorInv(Apply(s, ItemAdded(id)))
    ensures Accounted(Apply(s, ItemAdded(id)))
  {
    ItemBytesZero(s.b.twilio, |s.b.twilio|, s.b.markSeq);
  }

  lemma AccountedAudio(s: World, id: string, payload: string)
    requires QueueInv(s) && MonitorInv(s) && Accounted(s) && Enabled(s, AudioDelta(id, payload))
    ensures Accounted(Apply(s, AudioDelta(id, payload)))
  {
    var s' := Apply(s, AudioDelta(id, payload));
    var q, floor := s.b.queue, s.m.floor;
    if s'.b.markSeq != s.b.markSeq {
      var item := s'.b.queue[|s'.b.queue| - 1];
      OldBytesAppend(q, item, floor);
      if |q| == OUTBOUND_QUEUE_MAX {
        OldBytesAppend(q[1..], item, floor);
      }
    }
    forall y | y in s'.b.ledger.marks ensures MarkCovered(s', y) {
      assert MarkCovered(s, y);
    }
  }

  /** Steps that touch neither the log, the ledger nor the queue's earlier audio, or only drop some. */
  lemma AccountedFramed(s: World, s': World)
    requires Accounted(s)
    requires s'.b.twilio == s.b.twilio && s'.b.ledger == s.b.ledger
    requires s'.m.floor == s.m.floor && s'.m.slack == s.m.slack && s'.m.Since() >= s.m.Since()
    requires OldPending(s'.b, s.m.floor) <= OldPending(s.b, s.m.floor)
    requires Unrecorded(s'.b, s.m.floor) + s'.m.lostBytes == Unrecorded(s.b, s.m.floor) + s.m.lostBytes
    ensures Accounted(s')
  {
    forall y | y in s'.b.ledger.marks ensures MarkCovered(s', y) {
      assert MarkCovered(s, y);
    }
  }

  lemma AccountedStep(s: World, step: Step)
    requires QueueInv(s) && LogInv(s.b) && MarkLast(s.b) && TwilioInv(s) && EchoedInv(s) && MonitorInv(s)
    requires s.b.ledger.Consistent() && Active(s.b) && PlayedPrefix(s) && Accounted(s)
    requires Enabled(s, step) && !step.ItemAdded? && Active(Apply(s, step).b)
    ensures Accounted(Apply(s, step))
  {
    PendingNonNegative(s);
    if step.AudioDelta? {
      AccountedAudio(s, step.item, step.payload);
    } else if step.WriterSendsMedia? {
      AccountedMedia(s);
    } else if step.WriterSendsMark? {
      AccountedMark(s);
    } else if step.WriterRecords? {
      AccountedRecord(s);
    } else if step.EchoRead? {
      AccountedEcho(s, step.mark);
    } else {
      AccountedFrame(s, step);
      AccountedFramed(s, Apply(s, step));
    }
  }

  lemma AccountedFrame(s: World, step: Step)
    requires s.b.ledger.itemId.Some? && Enabled(s, step) && Active(Apply(s, step).b) && OldPending(s.b, s.m.floor) >= 0
    requires OldBytes(s.b.queue, s.m.floor) >= 0
    requires !step.ItemAdded? && !step.AudioDelta? && !step.WriterSendsMedia? && !step.WriterSendsMark?
    requires !step.WriterRecords? && !step.EchoRead?
    requires s.b.writer.Busy() ==> Sized(s.b.writer.item)
    ensures var s', floor := Apply(s, step), s.m.floor;
            && s'.b.twilio == s.b.twilio && s'.b.ledger == s.b.ledger
            && s'.m.floor == floor && s'.m.slack == s.m.slack && s'.m.Since() >= s.m.Since()
            && OldPending(s'.b, floor) <= OldPending(s.b, floor)
            && Unrecorded(s'.b, floor) + s'.m.lostBytes == Unrecorded(s.b, floor) + s.m.lostBytes
  {
    if step.TwilioReceives? || step.TwilioPlays? {
      WireFrame(s, step);
    }
  }

  lemma WireFrame(s: World, step: Step)
    requires Enabled(s, step) && (step.TwilioReceives? || step.TwilioPlays?)
    ensures var s' := Apply(s, step);
            && s'.b == s.b && s'.m.Since() >= s.m.Since()
            && s'.m == s.m.(heard := s'.m.heard, othersHeard := s'.m.othersHeard)
  {
  }

  lemma ConsistentStep(s: World, step: Step)
    requires QueueInv(s) && s.b.ledger.Consistent() && Enabled(s, step)
    ensures Apply(s, step).b.ledger.Consistent()
  {
  }

  lemma CutFigureStep(s: World, step: Step)
    requires MonitorInv(s) && LedgerInv(s) && Enabled(s, step)
    ensures var s' := Apply(s, step);
            s'.b.cut.Cut? && s'.b.cut.itemId.Some? ==> 8 * s'.b.cut.audioEndMs <= s'.m.Since() + s'.m.slack
  {
  }

  // -- Every reachable state --------------------------------------------

  ghost predicate Inv(s: World) {
    && QueueInv(s) && LogInv(s.b) && MarkLast(s.b) && TwilioInv(s) && EchoedInv(s)
    && MonitorInv(s) && HeardInv(s) && LedgerInv(s)
  }

  lemma InvStep(s: World, step: Step)
    requires Inv(s) && Enabled(s, step)
    ensures Inv(Apply(s, step))
  {
    var s' := Apply(s, step);
    QueueInvStep(s, step);
    LogInvStep(s, step);
    MarkLastStep(s, step);
    EchoedInvStep(s, step);
    MonitorInvStep(s, step);
    HeardInvStep(s, step);
    ConsistentStep(s, step);
    CutFigureStep(s, step);
    if step.ItemAdded? {
      AccountedItem(s, step.id);
    } else if Active(s'.b) {
      StaysActive(s, step);
      AccountedStep(s, step);
    }
  }

  lemma StaysActive(s: World, step: Step)
    requires s.b.cut.Cut? && s.b.cut.stage == Report ==> s.b.ledger.itemId.None?
    requires Enabled(s, step) && !step.ItemAdded? && Active(Apply(s, step).b)
    ensures Active(s.b)
  {
  }

  lemma {:induction false} InvHolds(steps: seq<Step>)
    ensures Inv(Exec(steps))
  {
    if steps != [] {
      var before, step := steps[..|steps| - 1], steps[|steps| - 1];
      InvHolds(before);
      if Enabled(Exec(before), step) {
        InvStep(Exec(before), step);
      }
    }
  }
}
