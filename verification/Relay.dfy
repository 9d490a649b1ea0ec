/** What the model sends is what Twilio gets: the same payloads, under their own numbers. */
module Relay {
  import opened Common
  import opened Bridge
  import opened Plane
  import Ledger

  /** The payloads the model sent that there was a stream for, in order. */
  function Deltas(steps: seq<Step>): seq<string> {
    if steps == [] then []
    else
      var before, step := steps[..|steps| - 1], steps[|steps| - 1];
      Deltas(before)
      + if step.AudioDelta? && Enabled(Exec(before), step) && step.payload != "" && Exec(before).b.streamSid != ""
        then [step.payload] else []
  }

  predicate Numbered(mark: nat, payload: string, deltas: seq<string>) {
    1 <= mark <= |deltas| && deltas[mark - 1] == payload
  }

  predicate Relayed(b: State, deltas: seq<string>) {
    && b.markSeq == |deltas|
    && (forall i | 0 <= i < |b.queue| :: Numbered(b.queue[i].mark, b.queue[i].payload, deltas))
    && (b.writer.Busy() ==> Numbered(b.writer.item.mark, b.writer.item.payload, deltas))
    && (forall i | 0 <= i < |b.twilio| && b.twilio[i].Media? :: Numbered(b.twilio[i].mark, b.twilio[i].payload, deltas))
  }

  lemma RelayedMore(b: State, deltas: seq<string>, payload: string)
    requires Relayed(b, deltas) && b.streamSid != "" && payload != ""
    ensures Relayed(b.AudioSent(payload), deltas + [payload])
  {
  }

  lemma RelayedStep(s: World, step: Step, deltas: seq<string>)
    requires Relayed(s.b, deltas) && Enabled(s, step) && !step.AudioDelta?
    ensures Relayed(Apply(s, step).b, deltas)
  {
  }

  /**
   Over every run the frames are numbered by the deltas that had a stream, and each frame
   queued, held or written carries the payload of its own delta, unchanged.
   */
  lemma {:induction false} PayloadsRelayed(steps: seq<Step>)
    ensures Relayed(Exec(steps).b, Deltas(steps))
  {
    if steps != [] {
      var before, step := steps[..|steps| - 1], steps[|steps| - 1];
      var s := Exec(before);
      PayloadsRelayed(before);
      if Enabled(s, step) {
        if step.AudioDelta? {
          if step.payload != "" && s.b.streamSid != "" {
            RelayedMore(s.b, Deltas(before), step.payload);
          }
        } else {
          RelayedStep(s, step, Deltas(before));
        }
      }
    }
  }

  // -- Acknowledgements count once --------------------------------------

  predicate AcksCounted(b: State) {
    b.marksAcked + |b.ledger.marks.Keys| <= b.framesToCaller
  }

  lemma FewerKeys(a: set<nat>, b: set<nat>)
    requires a <= b
    ensures |a| <= |b|
  {
    if x :| x in a {
      FewerKeys(a - {x}, b - {x});
    }
  }

  lemma AckedKeys(ledger: Ledger.State<nat>, mark: nat)
    ensures var after := |ledger.Acked(mark).marks.Keys|;
            after <= |ledger.marks.Keys| - if mark in ledger.marks then 1 else 0
  {
    if mark in ledger.marks {
      FewerKeys(ledger.Acked(mark).marks.Keys, ledger.marks.Keys - {mark});
    }
  }

  lemma AcksCountedStep(s: World, step: Step)
    requires AcksCounted(s.b)
    ensures AcksCounted(Do(s, step).b)
  {
    if step.EchoRead? {
      AckedKeys(s.b.ledger, step.mark);
    } else if step.WriterRecords? && Enabled(s, step) {
      assert Do(s, step).b.ledger.marks.Keys == s.b.ledger.marks.Keys + {s.b.writer.item.mark};
    } else {
      AcksFrame(s, step);
    }
  }

  lemma AcksFrame(s: World, step: Step)
    requires !step.EchoRead? && !(step.WriterRecords? && Enabled(s, step))
    ensures var b' := Do(s, step).b;
            && b'.marksAcked == s.b.marksAcked && b'.framesToCaller == s.b.framesToCaller
            && (b'.ledger.marks == s.b.ledger.marks || b'.ledger.marks == map[])
  {
  }

  /** However often Twilio echoes a mark, each frame is counted as acknowledged at most once. */
  lemma {:induction false} AcksCountOnce(steps: seq<Step>)
    ensures AcksCounted(Exec(steps).b)
  {
    if steps != [] {
      AcksCountOnce(steps[..|steps| - 1]);
      AcksCountedStep(Exec(steps[..|steps| - 1]), steps[|steps| - 1]);
    }
  }

  // -- The current item -------------------------------------------------

  /** The item that last started, unless a cut has reset the ledger since. */
  function LastItem(steps: seq<Step>): Option<string> {
    if steps == [] then None
    else
      var before, step := steps[..|steps| - 1], steps[|steps| - 1];
      if !Enabled(Exec(before), step) then LastItem(before)
      else if step.ItemAdded? then Some(step.id)
      else if step.CutContinues? && Exec(before).b.cut.stage == ResetLedger then None
      else LastItem(before)
  }

  lemma ItemStep(s: World, step: Step)
    ensures Do(s, step).b.ledger.itemId
         == if !Enabled(s, step) then s.b.ledger.itemId
            else if step.ItemAdded? then Some(step.id)
            else if step.CutContinues? && s.b.cut.stage == ResetLedger then None
            else s.b.ledger.itemId
  {
  }

  lemma {:induction false} CurrentItemIsLast(steps: seq<Step>)
    ensures Exec(steps).b.ledger.itemId == LastItem(steps)
  {
    if steps != [] {
      CurrentItemIsLast(steps[..|steps| - 1]);
      ItemStep(Exec(steps[..|steps| - 1]), steps[|steps| - 1]);
    }
  }
}
