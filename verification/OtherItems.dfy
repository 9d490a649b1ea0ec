/**
 Audio the model sends for another item than the one the bridge takes to be current. The
 bridge never looks at which item a delta belongs to.
 */
module OtherItems {
  import opened Common
  import opened Bridge
  import opened Plane
  import Base64

  /** Bytes of `others` among the first `n` log entries. */
  function OtherBytes(log: seq<ToTwilio>, n: nat, others: set<nat>): nat
    requires n <= |log|
  {
    if n == 0 then 0
    else OtherBytes(log, n - 1, others)
         + if log[n - 1].Media? && log[n - 1].mark in others then AudioBytes(log[n - 1].payload) else 0
  }

  function OtherQueue(queue: seq<OutboundAudio>, others: set<nat>): nat {
    if queue == [] then 0
    else (if queue[0].mark in others then AudioBytes(queue[0].payload) else 0) + OtherQueue(queue[1..], others)
  }

  function OtherHeld(b: State, others: set<nat>): nat {
    if b.writer.Holding? && b.writer.item.mark in others then AudioBytes(b.writer.item.payload) else 0
  }

  lemma {:induction false} OtherBytesFramed(log: seq<ToTwilio>, e: ToTwilio, n: nat, others: set<nat>)
    requires n <= |log|
    ensures OtherBytes(log + [e], n, others) == OtherBytes(log, n, others)
  {
    if n > 0 {
      OtherBytesFramed(log, e, n - 1, others);
    }
  }

  lemma {:induction false} OtherBytesMonotone(log: seq<ToTwilio>, i: nat, j: nat, others: set<nat>)
    requires i <= j <= |log|
    ensures OtherBytes(log, i, others) <= OtherBytes(log, j, others)
    decreases j
  {
    if i < j {
      OtherBytesMonotone(log, i, j - 1, others);
    }
  }

  lemma {:induction false} OtherBytesNew(log: seq<ToTwilio>, n: nat, others: set<nat>, x: nat)
    requires n <= |log| && forall i | 0 <= i < n && log[i].Media? :: log[i].mark != x
    ensures OtherBytes(log, n, others + {x}) == OtherBytes(log, n, others)
  {
    if n > 0 {
      OtherBytesNew(log, n - 1, others, x);
    }
  }

  lemma {:induction false} OtherBytesNone(log: seq<ToTwilio>, n: nat)
    requires n <= |log|
    ensures OtherBytes(log, n, {}) == 0
  {
    if n > 0 {
      OtherBytesNone(log, n - 1);
    }
  }

  lemma {:induction false} OtherQueueNone(queue: seq<OutboundAudio>)
    ensures OtherQueue(queue, {}) == 0
  {
    if queue != [] {
      OtherQueueNone(queue[1..]);
    }
  }

  lemma {:induction false} OtherQueueNew(queue: seq<OutboundAudio>, others: set<nat>, x: nat)
    requires forall i | 0 <= i < |queue| :: queue[i].mark != x
    ensures OtherQueue(queue, others + {x}) == OtherQueue(queue, others)
  {
    if queue != [] {
      OtherQueueNew(queue[1..], others, x);
    }
  }

  lemma {:induction false} OtherQueueAppend(queue: seq<OutboundAudio>, item: OutboundAudio, others: set<nat>)
    ensures OtherQueue(queue + [item], others)
         == OtherQueue(queue, others) + if item.mark in others then AudioBytes(item.payload) else 0
  {
    if queue != [] {
      assert (queue + [item])[1..] == queue[1..] + [item];
      OtherQueueAppend(queue[1..], item, others);
    }
  }

  /** What of the others was heard has been written; what was written or still may be was queued. */
  predicate OthersInv(s: World)
    requires TwilioInv(s)
  {
    var log, t, m := s.b.twilio, s.t, s.m;
    && m.othersHeard <= OtherBytes(log, t.next, m.others)
                        + (if t.offset > 0 && log[t.next].mark in m.others then t.offset else 0)
    && OtherBytes(log, |log|, m.others) + OtherQueue(s.b.queue, m.others) + OtherHeld(s.b, m.others) <= m.othersQueued
  }

  /** Nothing the sums read has changed, or the queue has only shrunk. */
  lemma OthersFramed(s: World, s': World)
    requires TwilioInv(s) && TwilioInv(s') && OthersInv(s)
    requires s'.b.twilio == s.b.twilio && s'.t == s.t && s'.m.others == s.m.others
    requires s'.m.othersHeard == s.m.othersHeard && s'.m.othersQueued == s.m.othersQueued
    requires OtherQueue(s'.b.queue, s.m.others) + OtherHeld(s'.b, s.m.others)
             <= OtherQueue(s.b.queue, s.m.others) + OtherHeld(s.b, s.m.others)
    ensures OthersInv(s')
  {
  }

  lemma OthersAppended(s: World, s': World, e: ToTwilio)
    requires TwilioInv(s) && TwilioInv(s') && OthersInv(s)
    requires s'.b.twilio == s.b.twilio + [e] && s'.t == s.t && s'.m == s.m && s'.b.queue == s.b.queue
    requires e.Media? ==>
               && s.b.writer.Holding? && s.b.writer.item.mark == e.mark && s.b.writer.item.payload == e.payload
               && s'.b.writer.MediaWritten?
    requires !e.Media? ==> OtherHeld(s'.b, s.m.others) == OtherHeld(s.b, s.m.others)
    ensures OthersInv(s')
  {
    OtherBytesFramed(s.b.twilio, e, s.t.next, s.m.others);
    OtherBytesFramed(s.b.twilio, e, |s.b.twilio|, s.m.others);
  }

  lemma PushedOthers(b: State, payload: string, others: set<nat>)
    requires Block(b.queue, b.markSeq) && |b.queue| <= OUTBOUND_QUEUE_MAX
    requires b.streamSid != "" && payload != ""
    ensures var b' := b.AudioSent(payload);
            && b'.markSeq == b.markSeq + 1
            && OtherQueue(b'.queue, others + {b'.markSeq}) <= OtherQueue(b.queue, others) + AudioBytes(payload)
            && ((forall x | x in others :: x <= b.markSeq) ==> OtherQueue(b'.queue, others) <= OtherQueue(b.queue, others))
  {
    var item := OutboundAudio(b.markSeq + 1, payload, Base64.DecodedSize(payload));
    var more := others + {item.mark};
    OtherQueueNew(b.queue, others, item.mark);
    OtherQueueAppend(b.queue, item, others);
    OtherQueueAppend(b.queue, item, more);
    if |b.queue| == OUTBOUND_QUEUE_MAX {
      OtherQueueAppend(b.queue[1..], item, others);
      OtherQueueAppend(b.queue[1..], item, more);
    }
  }

  lemma OthersGrow(s: World, s': World, x: nat)
    requires TwilioInv(s) && TwilioInv(s') && OthersInv(s)
    requires s'.b.twilio == s.b.twilio && s'.t == s.t && s'.b.writer == s.b.writer
    requires s'.m.others == s.m.others + {x} && s'.m.othersHeard == s.m.othersHeard
    requires forall i | 0 <= i < |s.b.twilio| && s.b.twilio[i].Media? :: s.b.twilio[i].mark != x
    requires s.b.writer.Holding? ==> s.b.writer.item.mark != x
    requires OtherQueue(s'.b.queue, s'.m.others) - OtherQueue(s.b.queue, s.m.others) <= s'.m.othersQueued - s.m.othersQueued
    ensures OthersInv(s')
  {
    OtherBytesNew(s.b.twilio, |s.b.twilio|, s.m.others, x);
    OtherBytesNew(s.b.twilio, s.t.next, s.m.others, x);
  }

  lemma OthersQueued(s: World, id: string, payload: string)
    requires Enabled(s, AudioDelta(id, payload)) && TwilioInv(s) && TwilioInv(Apply(s, AudioDelta(id, payload)))
    requires OthersInv(s) && QueueInv(s) && LogInv(s.b) && MonitorInv(s)
    ensures OthersInv(Apply(s, AudioDelta(id, payload)))
  {
    var s' := Apply(s, AudioDelta(id, payload));
    if payload == "" || s.b.streamSid == "" {
      OthersFramed(s, s');
    } else {
      PushedOthers(s.b, payload, s.m.others);
      if s.b.ledger.itemId == Some(id) {
        OthersFramed(s, s');
      } else {
        OthersGrow(s, s', s'.b.markSeq);
      }
    }
  }

  lemma OthersReceived(s: World)
    requires Enabled(s, TwilioReceives) && TwilioInv(s) && TwilioInv(Apply(s, TwilioReceives)) && OthersInv(s)
    ensures OthersInv(Apply(s, TwilioReceives))
  {
    var log, t, others := s.b.twilio, s.t, s.m.others;
    if log[t.received].Clear? {
      if t.offset > 0 {
        OtherBytesMonotone(log, t.next + 1, t.received + 1, others);
      } else {
        OtherBytesMonotone(log, t.next, t.received + 1, others);
      }
    }
  }

  lemma OthersPlayed(s: World, k: nat)
    requires Enabled(s, TwilioPlays(k)) && TwilioInv(s) && TwilioInv(Apply(s, TwilioPlays(k))) && OthersInv(s)
    ensures OthersInv(Apply(s, TwilioPlays(k)))
  {
  }

  lemma OthersStarted(s: World, id: string)
    requires Enabled(s, ItemAdded(id)) && TwilioInv(s) && TwilioInv(Apply(s, ItemAdded(id)))
    ensures OthersInv(Apply(s, ItemAdded(id)))
  {
    OtherBytesNone(s.b.twilio, |s.b.twilio|);
    OtherQueueNone(s.b.queue);
  }

  lemma OthersStep(s: World, step: Step)
    requires Enabled(s, step) && TwilioInv(s) && TwilioInv(Apply(s, step))
    requires OthersInv(s) && QueueInv(s) && LogInv(s.b) && MonitorInv(s)
    ensures OthersInv(Apply(s, step))
  {
    var s' := Apply(s, step);
    if step.AudioDelta? {
      OthersQueued(s, step.item, step.payload);
    } else if step.ItemAdded? {
      OthersStarted(s, step.id);
    } else if step.TwilioReceives? {
      OthersReceived(s);
    } else if step.TwilioPlays? {
      OthersPlayed(s, step.bytes);
    } else if step.WriterSendsMedia? {
      OthersAppended(s, s', Media(s.b.writer.item.mark, s.b.writer.item.payload));
    } else if step.WriterSendsMark? {
      OthersAppended(s, s', Mark(s.b.writer.item.mark));
    } else if step.CutContinues? && s.b.cut.stage == SendClear {
      OthersAppended(s, s', Clear);
    } else {
      OthersFrame(s, step);
      OthersFramed(s, s');
    }
  }

  lemma OthersFrame(s: World, step: Step)
    requires Enabled(s, step) && !step.AudioDelta? && !step.ItemAdded? && !step.TwilioReceives? && !step.TwilioPlays?
    requires !step.WriterSendsMedia? && !step.WriterSendsMark? && !(step.CutContinues? && s.b.cut.stage == SendClear)
    ensures var s', others := Apply(s, step), s.m.others;
            && s'.b.twilio == s.b.twilio && s'.t == s.t && s'.m.others == others
            && s'.m.othersHeard == s.m.othersHeard && s'.m.othersQueued == s.m.othersQueued
            && OtherQueue(s'.b.queue, others) + OtherHeld(s'.b, others)
               <= OtherQueue(s.b.queue, others) + OtherHeld(s.b, others)
  {
  }

  ghost predicate Tallied(s: World) {
    TwilioInv(s) && OthersInv(s)
  }

  lemma TalliedStep(s: World, step: Step)
    requires Inv(s) && Tallied(s)
    ensures Tallied(Do(s, step))
  {
    if Enabled(s, step) {
      TwilioInvStep(s, step);
      OthersStep(s, step);
    }
  }

  lemma {:induction false} TalliedHolds(steps: seq<Step>)
    ensures Tallied(Exec(steps))
  {
    if steps != [] {
      TalliedHolds(steps[..|steps| - 1]);
      InvHolds(steps[..|steps| - 1]);
      TalliedStep(Exec(steps[..|steps| - 1]), steps[|steps| - 1]);
    }
  }

  /** No more of the others was heard than was queued, and none when none was queued. */
  lemma OthersHold(steps: seq<Step>)
    ensures var m := Exec(steps).m;
            && m.othersHeard <= m.othersQueued
            && (m.others == {} ==> m.othersHeard <= 0)
  {
    TalliedHolds(steps);
    OthersBounded(Exec(steps));
  }

  lemma OthersBounded(s: World)
    requires TwilioInv(s) && OthersInv(s)
    ensures s.m.othersHeard <= s.m.othersQueued
    ensures s.m.others == {} ==> s.m.othersHeard <= 0
  {
    var log, t, others := s.b.twilio, s.t, s.m.others;
    if t.offset > 0 {
      OtherBytesMonotone(log, t.next + 1, |log|, others);
    } else {
      OtherBytesMonotone(log, t.next, |log|, others);
    }
    if others == {} {
      OtherBytesNone(log, t.next);
    }
  }
}
