/**
 The media plane and the decisions of a call, together: the model's events drive both, and
 an escalation for safety starts a cut of what is playing.
 */
module WholeCall {
  import opened Common
  import opened Plane
  import Bridge
  import Call = CallSession
  import MediaTheorems

  datatype Whole = Whole(media: World, call: Call.State)

  /** `Decides` is an event of the model that may end in an escalation check. */
  datatype Move = Flows(step: Step) | Decides(event: Call.Event)

  /** A safety cut only ever comes out of a check, and both kinds of event wait for a cut in progress. */
  predicate Possible(w: Whole, move: Move) {
    match move
    case Flows(step) => !step.SafetyCut? && Enabled(w.media, step)
    case Decides(e) => !e.StreamStarted? && w.media.b.listening && w.media.b.cut.NoCut?
  }

  function Decided(cfg: Call.Config, w: Whole, e: Call.Event): Whole
    requires Possible(w, Decides(e))
  {
    var call := Call.Handle(w.call, cfg, e);
    Whole(if call.interruptions > w.call.interruptions then Apply(w.media, SafetyCut) else w.media, call)
  }

  function Made(cfg: Call.Config, w: Whole, move: Move): Whole
    requires Possible(w, move)
  {
    match move
    case Flows(step) =>
      Whole(Apply(w.media, step), if step.StreamStart? then Call.Handle(w.call, cfg, Call.StreamStarted) else w.call)
    case Decides(e) => Decided(cfg, w, e)
  }

  function Next(cfg: Call.Config, w: Whole, move: Move): Whole {
    if Possible(w, move) then Made(cfg, w, move) else w
  }

  function Play(cfg: Call.Config, moves: seq<Move>): Whole {
    if moves == [] then Whole(Start(), Call.FRESH)
    else Next(cfg, Play(cfg, moves[..|moves| - 1]), moves[|moves| - 1])
  }

  // -- The two halves ---------------------------------------------------

  function MediaPart(cfg: Call.Config, w: Whole, move: Move): seq<Step> {
    if !Possible(w, move) then []
    else match move
      case Flows(step) => [step]
      case Decides(e) => if Decided(cfg, w, e).call.interruptions > w.call.interruptions then [SafetyCut] else []
  }

  function CallPart(w: Whole, move: Move): seq<Call.Event> {
    if !Possible(w, move) then []
    else match move
      case Flows(step) => if step.StreamStart? then [Call.StreamStarted] else []
      case Decides(e) => [e]
  }

  function MediaTrace(cfg: Call.Config, moves: seq<Move>): seq<Step> {
    if moves == [] then []
    else MediaTrace(cfg, moves[..|moves| - 1]) + MediaPart(cfg, Play(cfg, moves[..|moves| - 1]), moves[|moves| - 1])
  }

  function CallTrace(cfg: Call.Config, moves: seq<Move>): seq<Call.Event> {
    if moves == [] then []
    else CallTrace(cfg, moves[..|moves| - 1]) + CallPart(Play(cfg, moves[..|moves| - 1]), moves[|moves| - 1])
  }

  lemma MediaNext(cfg: Call.Config, w: Whole, move: Move, trace: seq<Step>)
    requires w.media == Exec(trace)
    ensures Next(cfg, w, move).media == Exec(trace + MediaPart(cfg, w, move))
  {
    var part := MediaPart(cfg, w, move);
    if part == [] {
      assert trace + part == trace;
    } else {
      assert part == [part[0]] && (trace + part)[..|trace|] == trace;
    }
  }

  lemma CallNext(cfg: Call.Config, w: Whole, move: Move, trace: seq<Call.Event>)
    requires w.call == Call.Run(cfg, trace)
    ensures Next(cfg, w, move).call == Call.Run(cfg, trace + CallPart(w, move))
  {
    var part := CallPart(w, move);
    if part == [] {
      assert trace + part == trace;
    } else {
      assert part == [part[0]] && (trace + part)[..|trace|] == trace;
    }
  }

  /**
   A whole call is a run of the media plane and a run of the call's decisions, so what
   holds over every run of either holds of its half.
   */
  lemma {:induction false} BothHalvesRun(cfg: Call.Config, moves: seq<Move>)
    ensures Play(cfg, moves).media == Exec(MediaTrace(cfg, moves))
    ensures Play(cfg, moves).call == Call.Run(cfg, CallTrace(cfg, moves))
  {
    if moves != [] {
      var before, move := moves[..|moves| - 1], moves[|moves| - 1];
      BothHalvesRun(cfg, before);
      MediaNext(cfg, Play(cfg, before), move, MediaTrace(cfg, before));
      CallNext(cfg, Play(cfg, before), move, CallTrace(cfg, before));
    }
  }

  // -- What a safety escalation does ------------------------------------

  function SafetyCuts(trace: seq<Step>): nat {
    if trace == [] then 0
    else SafetyCuts(trace[..|trace| - 1]) + (if trace[|trace| - 1].SafetyCut? then 1 else 0)
  }

  /** The bridge and the call agree on whether playback can be cut, and on how often it was for safety. */
  predicate Agree(w: Whole, trace: seq<Step>) {
    w.media.b.hasController == w.call.hasController && SafetyCuts(trace) == w.call.interruptions
  }

  lemma ControllerKept(s: World, step: Step)
    requires Enabled(s, step)
    ensures Apply(s, step).b.hasController == (s.b.hasController || step.StreamStart?)
  {
  }

  lemma AgreeNext(cfg: Call.Config, w: Whole, move: Move, trace: seq<Step>)
    requires Agree(w, trace) && Call.Inv(w.call, cfg)
    ensures Agree(Next(cfg, w, move), trace + MediaPart(cfg, w, move))
  {
    var part := MediaPart(cfg, w, move);
    if part == [] {
      assert trace + part == trace;
    } else {
      assert part == [part[0]] && (trace + part)[..|trace|] == trace;
    }
    if Possible(w, move) {
      match move
      case Flows(step) => ControllerKept(w.media, step);
      case Decides(e) =>
        Call.EventEffect(w.call, cfg, e);
        ControllerKept(w.media, SafetyCut);
    }
  }

  lemma {:induction false} HalvesAgree(cfg: Call.Config, moves: seq<Move>)
    ensures Agree(Play(cfg, moves), MediaTrace(cfg, moves))
  {
    if moves != [] {
      var before, move := moves[..|moves| - 1], moves[|moves| - 1];
      HalvesAgree(cfg, before);
      BothHalvesRun(cfg, before);
      Call.InvHolds(cfg, CallTrace(cfg, before));
      AgreeNext(cfg, Play(cfg, before), move, MediaTrace(cfg, before));
    }
  }

  /** Over a whole call, playback is cut for safety as often as the call interrupted: once at most, and only then. */
  lemma SafetyCutsOnce(cfg: Call.Config, moves: seq<Move>)
    ensures var cuts, call := SafetyCuts(MediaTrace(cfg, moves)), Play(cfg, moves).call;
            && cuts == call.interruptions <= 1
            && (cuts == 1 ==> call.escalated && call.escalations == [Call.Safety])
  {
    HalvesAgree(cfg, moves);
    BothHalvesRun(cfg, moves);
    Call.InterruptsOnce(cfg, CallTrace(cfg, moves));
  }

  /** The event finds a safety reason in a call that has not escalated, on a stream that has started. */
  predicate SafetyStrikes(cfg: Call.Config, w: Whole, e: Call.Event) {
    !w.call.escalated && Call.Finds(w.call, cfg, e) == Some(Call.Safety) && w.media.b.hasController
  }

  /**
   In every whole call, an event starts a cut exactly when it is the first to escalate,
   for safety, on a started stream. The cut names the current item, its figure obeys the
   bound, and the bridge's own queue is left as it is.
   */
  lemma SafetyCutBegins(cfg: Call.Config, moves: seq<Move>, e: Call.Event)
    requires Possible(Play(cfg, moves), Decides(e))
    ensures var w, w' := Play(cfg, moves), Next(cfg, Play(cfg, moves), Decides(e));
            var cut := w'.media.b.cut;
            && (cut.Cut? <==> SafetyStrikes(cfg, w, e))
            && w'.media.b.queue == w.media.b.queue
            && (cut.Cut? ==>
                  && w'.call.escalations == [Call.Safety] && cut.itemId == w.media.b.ledger.itemId
                  && MediaTheorems.FigureOf(w.media.b, cut.audioEndMs)
                  && (cut.itemId.Some? ==> MediaTheorems.WithinError(w.media, cut.audioEndMs)))
  {
    var w := Play(cfg, moves);
    HalvesAgree(cfg, moves);
    BothHalvesRun(cfg, moves);
    Call.InvHolds(cfg, CallTrace(cfg, moves));
    Call.EventEffect(w.call, cfg, e);
    if SafetyStrikes(cfg, w, e) {
      MediaTheorems.CutReadsBoundedFigure(MediaTrace(cfg, moves), SafetyCut);
      CutLeavesQueue(w.media);
    }
  }

  lemma CutLeavesQueue(s: World)
    requires Enabled(s, SafetyCut)
    ensures Apply(s, SafetyCut).b.queue == s.b.queue
  {
  }

  /**
   Run to its end with nothing in between, that cut flushes Twilio and resets the ledger;
   but every frame in the bridge's own queue is still there to be written behind the
   flush. Only the caller's interruption discards them.
   */
  lemma SafetyCutKeepsQueue(b: Bridge.State)
    requires b.hasController && b.cut.NoCut?
    ensures var safety, caller := Bridge.UninterruptedCut(b.CutStarted(false)), Bridge.UninterruptedCut(b.CutStarted(true));
            && safety.twilio == caller.twilio == b.twilio + [Bridge.Clear]
            && safety.model == caller.model && safety.ledger == caller.ledger == b.ledger.Reset(None)
            && safety.queue == b.queue && caller.queue == []
            && safety.cut.NoCut?
  {
  }
}
