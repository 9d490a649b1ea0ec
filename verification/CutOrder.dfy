/**
 What a cut says and in which order, over every run: the messages that reach Twilio and the
 model, and the figure they carry, traced back to the moment the cut began.
 */
module CutOrder {
  import opened Common
  import opened Bridge
  import opened Plane
  import opened MediaTheorems
  import opened Truncation

  /** A cut really begins: by the caller's speech or for safety. */
  ghost predicate StartsCut(steps: seq<Step>, i: int) {
    && 0 <= i < |steps| && (steps[i].SpeechStarted? || steps[i].SafetyCut?)
    && Enabled(Exec(steps[..i]), steps[i]) && Exec(steps[..i]).b.hasController
  }

  predicate SameCut(a: Cut, b: Cut) {
    a.Cut? && b.Cut? && a.(stage := b.stage) == b
  }

  lemma CutStep(s: World, step: Step)
    requires Do(s, step).b.cut.Cut?
    ensures s.b.cut.Cut? ==> SameCut(s.b.cut, Do(s, step).b.cut)
    ensures s.b.cut.NoCut? ==>
              && (step.SpeechStarted? || step.SafetyCut?) && Enabled(s, step) && s.b.hasController
              && Do(s, step).b.cut.stage == SendClear
  {
  }

  predicate CutAt(steps: seq<Step>, j: int) {
    0 <= j <= |steps| && Exec(steps[..j]).b.cut.Cut?
  }

  /** A cut has been in progress ever since step `i`. */
  ghost predicate CuttingSince(steps: seq<Step>, i: int) {
    forall j | i < j <= |steps| && 0 <= j :: CutAt(steps, j)
  }

  lemma CutAtPrefix(steps: seq<Step>, n: nat, j: nat)
    requires j <= n <= |steps|
    ensures CutAt(steps[..n], j) == CutAt(steps, j)
  {
    assert steps[..n][..j] == steps[..j];
  }

  lemma StartsCutPrefix(steps: seq<Step>, n: nat, i: nat)
    requires i < n <= |steps|
    ensures StartsCut(steps[..n], i) == StartsCut(steps, i) && steps[..n][..i] == steps[..i]
  {
    assert steps[..n][..i] == steps[..i];
  }

  lemma SinceGrows(steps: seq<Step>, i: nat)
    requires i < |steps| && CutAt(steps, |steps|)
    requires i < |steps| - 1 ==> CuttingSince(steps[..|steps| - 1], i)
    ensures CuttingSince(steps, i)
  {
    forall j | i < j < |steps| ensures CutAt(steps, j) {
      CutAtPrefix(steps, |steps| - 1, j);
    }
  }

  /** A cut in progress is the one that began at some step, its readings unchanged. */
  lemma {:induction false} CutOrigin(steps: seq<Step>) returns (i: nat)
    requires Exec(steps).b.cut.Cut?
    ensures StartsCut(steps, i) && CuttingSince(steps, i)
    ensures SameCut(Apply(Exec(steps[..i]), steps[i]).b.cut, Exec(steps).b.cut)
  {
    assert steps != [] && steps[..|steps|] == steps;
    var n := |steps| - 1;
    CutStep(Exec(steps[..n]), steps[n]);
    if Exec(steps[..n]).b.cut.Cut? {
      i := CutOrigin(steps[..n]);
      StartsCutPrefix(steps, n, i);
    } else {
      i := n;
    }
    SinceGrows(steps, i);
  }

  // -- What the model is told -------------------------------------------

  /** The messages of a cut so far stand at the end of the log. */
  predicate Told(model: seq<ToModel>, cut: Cut) {
    match cut
    case NoCut => true
    case Cut(id, ms, _, _, stage) =>
      if stage == SendClear || stage == SendCancel then true
      else if stage == SendTruncate then cut.Truncates() && Ends(model, [CancelResponse])
      else if cut.Truncates() then Ends(model, [CancelResponse, Truncate(id.value, ms)])
      else Ends(model, [CancelResponse])
  }

  predicate Ends(model: seq<ToModel>, tail: seq<ToModel>) {
    |tail| <= |model| && model[|model| - |tail|..] == tail
  }

  /** Every truncate stands right behind a cancel. */
  predicate TruncatesFollowCancels(model: seq<ToModel>) {
    forall k | 0 <= k < |model| && model[k].Truncate? :: k > 0 && model[k - 1].CancelResponse?
  }

  lemma ToldStep(s: World, step: Step)
    requires Told(s.b.model, s.b.cut) && TruncatesFollowCancels(s.b.model)
    ensures Told(Do(s, step).b.model, Do(s, step).b.cut) && TruncatesFollowCancels(Do(s, step).b.model)
  {
    if step.CutContinues? && Enabled(s, step) {
      ToldAdvance(s.b);
    } else {
      ModelFrame(s, step);
    }
  }

  lemma ModelFrame(s: World, step: Step)
    requires !step.CutContinues? || !Enabled(s, step)
    ensures var b' := Do(s, step).b;
            b'.model == s.b.model && (b'.cut == s.b.cut || (s.b.cut.NoCut? && b'.cut.Cut? && b'.cut.stage == SendClear))
  {
  }

  lemma EndsMore(model: seq<ToModel>, m: ToModel)
    ensures Ends(model + [m], [m])
    ensures Ends(model, [CancelResponse]) ==> Ends(model + [m], [CancelResponse, m])
  {
    if Ends(model, [CancelResponse]) {
      assert model == model[..|model| - 1] + [CancelResponse];
    }
  }

  lemma FollowsMore(model: seq<ToModel>, m: ToModel)
    requires TruncatesFollowCancels(model) && (m.Truncate? ==> Ends(model, [CancelResponse]))
    ensures TruncatesFollowCancels(model + [m])
  {
    if m.Truncate? {
      assert model[|model| - 1..][0] == CancelResponse;
    }
  }

  lemma ToldCancel(b: State)
    requires b.cut.Cut? && b.cut.stage == SendCancel && TruncatesFollowCancels(b.model)
    ensures Told(b.CutAdvanced().model, b.CutAdvanced().cut) && TruncatesFollowCancels(b.CutAdvanced().model)
  {
    EndsMore(b.model, CancelResponse);
    FollowsMore(b.model, CancelResponse);
  }

  lemma ToldTruncate(b: State)
    requires b.cut.Cut? && b.cut.stage == SendTruncate && b.cut.Truncates()
    requires Ends(b.model, [CancelResponse]) && TruncatesFollowCancels(b.model)
    ensures Told(b.CutAdvanced().model, b.CutAdvanced().cut) && TruncatesFollowCancels(b.CutAdvanced().model)
  {
    EndsMore(b.model, Truncate(b.cut.itemId.value, b.cut.audioEndMs));
    FollowsMore(b.model, Truncate(b.cut.itemId.value, b.cut.audioEndMs));
  }

  lemma ToldNothing(b: State)
    requires b.cut.Cut? && b.cut.stage != SendCancel && b.cut.stage != SendTruncate
    ensures b.CutAdvanced().model == b.model
    ensures Told(b.model, b.cut) ==> Told(b.model, b.CutAdvanced().cut)
  {
  }

  lemma ToldAdvance(b: State)
    requires b.cut.Cut? && Told(b.model, b.cut) && TruncatesFollowCancels(b.model)
    ensures Told(b.CutAdvanced().model, b.CutAdvanced().cut) && TruncatesFollowCancels(b.CutAdvanced().model)
  {
    if b.cut.stage == SendCancel {
      ToldCancel(b);
    } else if b.cut.stage == SendTruncate {
      ToldTruncate(b);
    } else {
      ToldNothing(b);
    }
  }

  lemma {:induction false} ToldHolds(steps: seq<Step>)
    ensures Told(Exec(steps).b.model, Exec(steps).b.cut) && TruncatesFollowCancels(Exec(steps).b.model)
  {
    if steps != [] {
      ToldHolds(steps[..|steps| - 1]);
      ToldStep(Exec(steps[..|steps| - 1]), steps[|steps| - 1]);
    }
  }

  /**
   When a cut has sent its messages: had an item been current with at least eight bytes
   reported when it began, the model has been told to cancel and then to truncate that
   item, at those bytes to the millisecond and within the error bounds of that moment;
   otherwise it has been told to cancel and nothing else.
   */
  lemma CutTells(steps: seq<Step>) returns (i: nat)
    requires Exec(steps).b.cut.Cut? && (Exec(steps).b.cut.stage == ResetLedger || Exec(steps).b.cut.stage == Report)
    ensures StartsCut(steps, i) && CuttingSince(steps, i)
    ensures var s, model := Exec(steps[..i]), Exec(steps).b.model;
            if s.b.ledger.itemId.Some? && Reported(s.b) >= 8 then
              exists ms: nat ::
                && Ends(model, [CancelResponse, Truncate(s.b.ledger.itemId.value, ms)])
                && FigureOf(s.b, ms) && WithinError(s, ms)
            else Ends(model, [CancelResponse])
  {
    i := CutOrigin(steps);
    ToldHolds(steps);
    CutReadsBoundedFigure(steps[..i], steps[i]);
    var cut := Exec(steps).b.cut;
    assert cut.Truncates() <==> Exec(steps[..i]).b.ledger.itemId.Some? && Reported(Exec(steps[..i]).b) >= 8;
  }

  /** Every truncate sent carries the figure of the moment its cut began. */
  lemma TruncateCarriesFigure(steps: seq<Step>, k: nat) returns (i: nat)
    requires SendsTruncate(steps, k)
    ensures i < k && StartsCut(steps, i)
    ensures var s := Exec(steps[..i]);
            && s.b.ledger.itemId.Some?
            && exists ms: nat ::
                 && Exec(steps[..k + 1]).b.model == Exec(steps[..k]).b.model + [Truncate(s.b.ledger.itemId.value, ms)]
                 && ms > 0 && FigureOf(s.b, ms) && WithinError(s, ms)
  {
    i := CutOrigin(steps[..k]);
    assert steps[..k][..i] == steps[..i] && steps[..k + 1][..k] == steps[..k];
    CutSoundHolds(steps[..k]);
    CutReadsBoundedFigure(steps[..i], steps[i]);
    var b := Exec(steps[..k]).b;
    assert b.CutAdvanced().model == b.model + [Truncate(b.cut.itemId.value, b.cut.audioEndMs)];
  }

  // -- The flush comes first --------------------------------------------

  function Clears(log: seq<ToTwilio>): nat {
    if log == [] then 0 else Clears(log[..|log| - 1]) + (if log[|log| - 1].Clear? then 1 else 0)
  }

  function Cancels(model: seq<ToModel>): nat {
    if model == [] then 0 else Cancels(model[..|model| - 1]) + (if model[|model| - 1].CancelResponse? then 1 else 0)
  }

  function Truncations(model: seq<ToModel>): nat {
    if model == [] then 0 else Truncations(model[..|model| - 1]) + (if model[|model| - 1].Truncate? then 1 else 0)
  }

  lemma CountsAppend(log: seq<ToTwilio>, e: ToTwilio, model: seq<ToModel>, m: ToModel)
    ensures Clears(log + [e]) == Clears(log) + if e.Clear? then 1 else 0
    ensures Cancels(model + [m]) == Cancels(model) + if m.CancelResponse? then 1 else 0
    ensures Truncations(model + [m]) == Truncations(model) + if m.Truncate? then 1 else 0
  {
    assert (log + [e])[..|log|] == log && (model + [m])[..|model|] == model;
  }

  /** A cancel is owed exactly between the flush and it. */
  predicate FlushedFirst(b: State) {
    Clears(b.twilio) == Cancels(b.model) + if b.cut.Cut? && b.cut.stage == SendCancel then 1 else 0
  }

  lemma FlushedStep(s: World, step: Step)
    requires FlushedFirst(s.b)
    ensures FlushedFirst(Do(s, step).b)
  {
    if step.CutContinues? && Enabled(s, step) {
      FlushedAdvance(s.b);
    } else {
      ModelFrame(s, step);
      if Do(s, step).b.twilio != s.b.twilio {
        LogFrame(s, step);
        CountsAppend(s.b.twilio, Do(s, step).b.twilio[|s.b.twilio|], s.b.model, CancelResponse);
      }
    }
  }

  lemma FlushedAdvance(b: State)
    requires b.cut.Cut? && FlushedFirst(b)
    ensures FlushedFirst(b.CutAdvanced())
  {
    CountsAppend(b.twilio, Clear, b.model, CancelResponse);
    if b.cut.stage == SendTruncate && b.cut.itemId.Some? {
      CountsAppend(b.twilio, Clear, b.model, Truncate(b.cut.itemId.value, b.cut.audioEndMs));
    }
  }

  lemma LogFrame(s: World, step: Step)
    requires Do(s, step).b.twilio != s.b.twilio
    ensures var b, b' := s.b, Do(s, step).b;
            && |b'.twilio| == |b.twilio| + 1 && b'.twilio == b.twilio + [b'.twilio[|b.twilio|]]
            && b'.model == b.model
            && (b'.twilio[|b.twilio|].Clear? <==> step.CutContinues? && b.cut.stage == SendClear)
            && (!b'.twilio[|b.twilio|].Clear? ==> b'.cut == b.cut)
  {
  }

  /** Over every run each cancel is sent behind a flush of its own, and each truncate right behind a cancel. */
  lemma {:induction false} FlushComesFirst(steps: seq<Step>)
    ensures FlushedFirst(Exec(steps).b) && TruncatesFollowCancels(Exec(steps).b.model)
    ensures Cancels(Exec(steps).b.model) <= Clears(Exec(steps).b.twilio)
  {
    if steps != [] {
      FlushComesFirst(steps[..|steps| - 1]);
      FlushedStep(Exec(steps[..|steps| - 1]), steps[|steps| - 1]);
    }
    ToldHolds(steps);
  }

  // -- The statistics ---------------------------------------------------

  /** With no safety cut, every truncate sent has been counted, or its cut has yet to return. */
  predicate BargeInsCounted(b: State) {
    && (b.cut.Cut? ==> b.cut.drained)
    && Truncations(b.model)
       == b.bargeIns + if b.cut.Truncates() && (b.cut.stage == ResetLedger || b.cut.stage == Report) then 1 else 0
  }

  lemma CountedStep(s: World, step: Step)
    requires BargeInsCounted(s.b) && CutSound(s.b) && !step.SafetyCut?
    ensures BargeInsCounted(Do(s, step).b)
  {
    if step.CutContinues? && Enabled(s, step) {
      CountedAdvance(s.b);
    } else {
      ModelFrame(s, step);
      BargeInFrame(s, step);
    }
  }

  lemma BargeInFrame(s: World, step: Step)
    requires !step.SafetyCut? && (!step.CutContinues? || !Enabled(s, step))
    ensures var b' := Do(s, step).b;
            b'.bargeIns == s.b.bargeIns && (b'.cut.Cut? ==> b'.cut == s.b.cut || b'.cut.drained)
  {
  }

  lemma CountedAdvance(b: State)
    requires b.cut.Cut? && BargeInsCounted(b) && CutSound(b)
    ensures BargeInsCounted(b.CutAdvanced())
  {
    var b' := b.CutAdvanced();
    if b'.model != b.model {
      CountsAppend(b.twilio, Clear, b.model, b'.model[|b.model|]);
    }
  }

  lemma {:induction false} BargeInsAreTruncations(steps: seq<Step>)
    requires forall k | 0 <= k < |steps| :: !steps[k].SafetyCut?
    ensures BargeInsCounted(Exec(steps).b)
  {
    if steps != [] {
      BargeInsAreTruncations(steps[..|steps| - 1]);
      CutSoundHolds(steps[..|steps| - 1]);
      CountedStep(Exec(steps[..|steps| - 1]), steps[|steps| - 1]);
    }
  }

  // -- A cut that raises ------------------------------------------------

  /** Nothing of the model's is taken any more, and it is told nothing. */
  predicate Silenced(s: World, e: World) {
    && !e.b.listening && e.b.model == s.b.model && e.b.cut == s.b.cut
    && e.b.markSeq == s.b.markSeq && e.b.ledger.itemId == s.b.ledger.itemId
  }

  lemma RaisingSilences(s: World, step: Step)
    requires step.CutRaises? && Enabled(s, step)
    ensures Silenced(s, Do(s, step))
  {
  }

  lemma SilenceLasts(s: World, e: World, step: Step)
    requires Silenced(s, e)
    ensures Silenced(s, Do(e, step))
  {
  }

  lemma {:induction false} SilentFrom(s: World, e: World, more: seq<Step>)
    requires Silenced(s, e)
    ensures Silenced(s, Then(e, more))
    decreases |more|
  {
    if more != [] {
      SilenceLasts(s, e, more[0]);
      SilentFrom(s, Do(e, more[0]), more[1..]);
    }
  }

  /** After a send inside a cut has raised, that is so for the rest of the run. */
  lemma RaisedCutIsLast(steps: seq<Step>, more: seq<Step>)
    requires Enabled(Exec(steps), CutRaises)
    ensures Silenced(Exec(steps), Exec(steps + ([CutRaises] + more)))
  {
    ExecThen(steps, [CutRaises] + more);
    Cons(Exec(steps), CutRaises, more);
    RaisingSilences(Exec(steps), CutRaises);
    SilentFrom(Exec(steps), Do(Exec(steps), CutRaises), more);
  }
}
