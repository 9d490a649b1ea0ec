/**
 The decisions of one call: which tools ran, which streaks built up, and when the call
 escalated. Everything here happens on the one coroutine that reads the model's events.
 */
module CallSession {
  import opened Common
  import opened Text
  import opened Tools

  /** The fixed word lists. What is proved holds for any lists; `SHIPPED_WORDS` are the service's. */
  datatype Words = WordLists(humanRequests: seq<string>, sentiments: seq<string>, negative: seq<string>)

  const SHIPPED_WORDS := WordLists(
    ["speak to a human", "speak to a person", "talk to a human", "talk to a person", "talk to someone",
     "speak to someone", "real person", "real human", "get me a person", "transfer me", "put me through",
     "operator", "representative", "manager"],
    ["positive", "neutral", "negative", "frustrated", "angry"],
    ["negative", "frustrated", "angry", "hostile"])

  const BOOKING_TOOL := "book_appointment"
  const AREA_TOOL := "check_service_area"
  const TRANSFER_TOOL := "transfer_to_human"

  datatype Config = Config(
    registry: Registry,
    words: Words,
    safetyKeywords: seq<string>,
    maxToolFailures: int,
    maxNegativeTurns: int)

  /** In order of priority. */
  datatype Reason = Safety | CallerRequest | ToolFailure | Frustration

  datatype ToolOutcome = ToolOutcome(name: string, status: Status, attempt: nat)

  /**
   `hasController` is whether the stream has started, so that playback can be interrupted.
   `sentiments`, `escalations`, `transfers` and `interruptions` record what the call has
   seen and done.
   */
  datatype State = State(
    lastCallerText: string,
    callerTurns: nat,
    humanRequested: bool,
    consecutiveToolFailures: nat,
    negativeSentimentTurns: nat,
    inServiceArea: Option<bool>,
    bookingConfirmed: bool,
    escalated: bool,
    toolHistory: seq<ToolOutcome>,
    hasController: bool,
    sentiments: seq<string>,
    escalations: seq<Reason>,
    transfers: nat,
    interruptions: nat)
  {
    function RecordTool(outcome: ToolOutcome): State {
      this.(toolHistory := toolHistory + [outcome],
            consecutiveToolFailures := if outcome.status.Ok? then 0 else consecutiveToolFailures + 1)
    }

    function RecordSentiment(mood: string, words: Words): State {
      this.(sentiments := sentiments + [mood],
            negativeSentimentTurns := if ToLower(mood) in words.negative then negativeSentimentTurns + 1 else 0)
    }

    /** The gateway's hook, run once for every invocation. */
    function OnInvocation(invocation: Invocation): State {
      var ok := invocation.result.status.Ok?;
      var booked := if invocation.name == BOOKING_TOOL && ok then this.(bookingConfirmed := true) else this;
      if invocation.name == AREA_TOOL && ok then booked.(inServiceArea := invocation.result.inArea) else booked
    }
  }

  const FRESH := State("", 0, false, 0, 0, None, false, false, [], false, [], [], 0, 0)

  // -- The predicate ----------------------------------------------------

  function Holds(reason: Reason, s: State, cfg: Config): bool {
    match reason
    case Safety => exists k | k in cfg.safetyKeywords :: Contains(ToLower(s.lastCallerText), k)
    case CallerRequest =>
      s.humanRequested || exists p | p in cfg.words.humanRequests :: Contains(ToLower(s.lastCallerText), p)
    case ToolFailure => s.consecutiveToolFailures >= cfg.maxToolFailures
    case Frustration => s.negativeSentimentTurns >= cfg.maxNegativeTurns
  }

  function ShouldEscalate(s: State, cfg: Config): Option<Reason> {
    if Holds(Safety, s, cfg) then Some(Safety)
    else if Holds(CallerRequest, s, cfg) then Some(CallerRequest)
    else if Holds(ToolFailure, s, cfg) then Some(ToolFailure)
    else if Holds(Frustration, s, cfg) then Some(Frustration)
    else None
  }

  function Priority(r: Reason): nat {
    match r case Safety => 0 case CallerRequest => 1 case ToolFailure => 2 case Frustration => 3
  }

  /** The decision is the highest-priority reason that holds, and none only when none holds. */
  lemma DecisionIsHighestPriority(s: State, cfg: Config, r: Reason)
    ensures ShouldEscalate(s, cfg) == Some(r) <==>
              Holds(r, s, cfg) && forall q: Reason | Priority(q) < Priority(r) :: !Holds(q, s, cfg)
    ensures ShouldEscalate(s, cfg) == None ==> !Holds(r, s, cfg)
  {
    assert Priority(Safety) == 0 && Priority(CallerRequest) == 1 && Priority(ToolFailure) == 2;
  }

  // -- Dispatch and escalation ------------------------------------------

  /** The invocation a call of a tool results in, known to the registry or not. */
  function Invoked(cfg: Config, name: string, handler: Handler): Invocation {
    if name in cfg.registry then Invoke(cfg.registry[name], handler)
    else Invocation(name, UNKNOWN_TOOL, 1, false)
  }

  /** What a dispatch records before it checks for escalation. */
  function Dispatched(s: State, cfg: Config, name: string, handler: Handler): State {
    var invocation := Invoked(cfg, name, handler);
    s.OnInvocation(invocation)
     .RecordTool(ToolOutcome(invocation.name, invocation.result.status, invocation.attempts))
  }

  /** The latch is set first; a safety reason also cuts off whatever is playing. */
  function Latch(s: State, reason: Reason): State {
    s.(escalated := true,
       escalations := s.escalations + [reason],
       interruptions := if reason.Safety? && s.hasController then s.interruptions + 1 else s.interruptions)
  }

  /** `transfer` is how the transfer tool would behave if this check dispatches it. */
  function Check(s: State, cfg: Config, transfer: Handler): State
    decreases if s.escalated then 0 else 1, 0
  {
    var decision := ShouldEscalate(s, cfg);
    if s.escalated || decision.None? then s
    else
      var latched := Latch(s, decision.value);
      if TRANSFER_TOOL in cfg.registry
      then Dispatch(latched.(transfers := latched.transfers + 1), cfg, TRANSFER_TOOL, transfer, transfer)
      else latched
  }

  function Dispatch(s: State, cfg: Config, name: string, handler: Handler, transfer: Handler): State
    decreases if s.escalated then 0 else 1, 1
  {
    Check(Dispatched(s, cfg, name, handler), cfg, transfer)
  }

  /** A check that escalates: the latch, and then the transfer when there is such a tool. */
  lemma CheckEscalates(s: State, cfg: Config, reason: Reason, transfer: Handler)
    requires !s.escalated && ShouldEscalate(s, cfg) == Some(reason)
    ensures var latched := Latch(s, reason);
            Check(s, cfg, transfer)
            == if TRANSFER_TOOL in cfg.registry
               then Dispatch(latched.(transfers := latched.transfers + 1), cfg, TRANSFER_TOOL, transfer, transfer)
               else latched
  {
  }

  datatype Event =
    | StreamStarted
    | CallerTranscript(text: string, transfer: Handler)
    | SentimentVerdict(mood: string, transfer: Handler)
    | FunctionCall(name: string, handler: Handler, transfer: Handler)

  function Normalised(mood: string): string { ToLower(StripDots(Strip(mood))) }

  /** The state an event brings to the escalation check, or nothing when it is ignored. */
  function BeforeCheck(s: State, cfg: Config, e: Event): Option<State> {
    match e
    case StreamStarted => None
    case CallerTranscript(text, _) =>
      if Strip(text) == "" then None
      else Some(s.(lastCallerText := text, callerTurns := s.callerTurns + 1))
    case SentimentVerdict(mood, _) =>
      if Normalised(mood) !in cfg.words.sentiments then None else Some(s.RecordSentiment(Normalised(mood), cfg.words))
    case FunctionCall(name, handler, _) => Some(Dispatched(s, cfg, name, handler))
  }

  function Handle(s: State, cfg: Config, e: Event): State {
    var before := BeforeCheck(s, cfg, e);
    if e.StreamStarted? then s.(hasController := true)
    else if before.None? then s
    else Check(before.value, cfg, e.transfer)
  }

  function Run(cfg: Config, events: seq<Event>): State {
    if events == [] then FRESH
    else Handle(Run(cfg, events[..|events| - 1]), cfg, events[|events| - 1])
  }

  function Classify(s: State): string {
    if s.bookingConfirmed then "booked"
    else if s.escalated then "escalated"
    else if s.inServiceArea == Some(false) then "out_of_area"
    else if s.callerTurns == 0 then "abandoned"
    else "qualified"
  }

  // -- The object -------------------------------------------------------

  class CallState {
    var lastCallerText: string
    var callerTurns: nat
    var humanRequested: bool
    var consecutiveToolFailures: nat
    var negativeSentimentTurns: nat
    var inServiceArea: Option<bool>
    var bookingConfirmed: bool
    var escalated: bool
    var toolHistory: seq<ToolOutcome>
    var hasController: bool
    ghost var sentiments: seq<string>
    ghost var escalations: seq<Reason>
    ghost var transfers: nat
    ghost var interruptions: nat

    ghost function View(): State
      reads this
    {
      State(lastCallerText, callerTurns, humanRequested, consecutiveToolFailures, negativeSentimentTurns,
            inServiceArea, bookingConfirmed, escalated, toolHistory, hasController,
            sentiments, escalations, transfers, interruptions)
    }

    constructor ()
      ensures View() == FRESH
    {
      lastCallerText, callerTurns, humanRequested := "", 0, false;
      consecutiveToolFailures, negativeSentimentTurns := 0, 0;
      inServiceArea, bookingConfirmed, escalated, toolHistory := None, false, false, [];
      hasController := false;
      sentiments, escalations, transfers, interruptions := [], [], 0, 0;
    }

    method RecordTool(outcome: ToolOutcome)
      modifies this
      ensures View() == old(View()).RecordTool(outcome)
    {
      toolHistory := toolHistory + [outcome];
      consecutiveToolFailures := if outcome.status.Ok? then 0 else consecutiveToolFailures + 1;
    }

    method RecordSentiment(mood: string, words: Words)
      modifies this
      ensures View() == old(View()).RecordSentiment(mood, words)
    {
      sentiments := sentiments + [mood];
      if ToLower(mood) in words.negative {
        negativeSentimentTurns := negativeSentimentTurns + 1;
      } else {
        negativeSentimentTurns := 0;
      }
    }

    method OnInvocation(invocation: Invocation)
      modifies this
      ensures View() == old(View()).OnInvocation(invocation)
    {
      if invocation.name == BOOKING_TOOL && invocation.result.status.Ok? {
        bookingConfirmed := true;
      }
      if invocation.name == AREA_TOOL && invocation.result.status.Ok? {
        inServiceArea := invocation.result.inArea;
      }
    }

    /** `should_escalate` reads the live state. */
    method Decide(cfg: Config) returns (decision: Option<Reason>)
      ensures decision == ShouldEscalate(View(), cfg)
    {
      var haystack := ToLower(lastCallerText);
      if exists k | k in cfg.safetyKeywords :: Contains(haystack, k) {
        return Some(Safety);
      }
      if humanRequested || exists p | p in cfg.words.humanRequests :: Contains(haystack, p) {
        return Some(CallerRequest);
      }
      if consecutiveToolFailures >= cfg.maxToolFailures {
        return Some(ToolFailure);
      }
      if negativeSentimentTurns >= cfg.maxNegativeTurns {
        return Some(Frustration);
      }
      return None;
    }
  }

  class Session {
    const cfg: Config
    const call: CallState

    constructor (cfg: Config)
      ensures this.cfg == cfg && fresh(call) && call.View() == FRESH
    {
      this.cfg := cfg;
      call := new CallState();
    }

    method CheckEscalation(transfer: Handler)
      modifies call
      ensures call.View() == Check(old(call.View()), cfg, transfer)
      decreases if call.escalated then 0 else 1, 0
    {
      if call.escalated {
        return;
      }
      var decision := call.Decide(cfg);
      if decision.None? {
        return;
      }
      LatchCall(decision.value);
      CheckEscalates(old(call.View()), cfg, decision.value, transfer);
      if TRANSFER_TOOL in cfg.registry {
        call.transfers := call.transfers + 1;
        DispatchCall(TRANSFER_TOOL, transfer, transfer);
      }
    }

    /** Set the latch, and cut off whatever is playing when the reason is safety. */
    method LatchCall(reason: Reason)
      modifies call
      ensures call.View() == Latch(old(call.View()), reason)
    {
      call.escalated := true;
      call.escalations := call.escalations + [reason];
      if reason.Safety? && call.hasController {
        call.interruptions := call.interruptions + 1;
      }
    }

    method DispatchCall(name: string, handler: Handler, transfer: Handler)
      modifies call
      ensures call.View() == Dispatch(old(call.View()), cfg, name, handler, transfer)
      decreases if call.escalated then 0 else 1, 1
    {
      var invocation;
      if name in cfg.registry {
        var spent;
        invocation, spent := RunTool(cfg.registry[name], handler);
      } else {
        invocation := Invocation(name, UNKNOWN_TOOL, 1, false);
      }
      call.OnInvocation(invocation);
      call.RecordTool(ToolOutcome(invocation.name, invocation.result.status, invocation.attempts));
      CheckEscalation(transfer);
    }

    method OnStreamStart()
      modifies call
      ensures call.View() == Handle(old(call.View()), cfg, StreamStarted)
    {
      call.hasController := true;
    }

    method OnCallerTranscript(text: string, transfer: Handler)
      modifies call
      ensures call.View() == Handle(old(call.View()), cfg, CallerTranscript(text, transfer))
    {
      if Strip(text) == "" {
        return;
      }
      ghost var s := call.View();
      call.lastCallerText := text;
      call.callerTurns := call.callerTurns + 1;
      assert BeforeCheck(s, cfg, CallerTranscript(text, transfer)) == Some(call.View());
      CheckEscalation(transfer);
    }

    method OnSentimentVerdict(reply: string, transfer: Handler)
      modifies call
      ensures call.View() == Handle(old(call.View()), cfg, SentimentVerdict(reply, transfer))
    {
      var mood := Normalised(reply);
      if mood !in cfg.words.sentiments {
        return;
      }
      call.RecordSentiment(mood, cfg.words);
      CheckEscalation(transfer);
    }

    method OnFunctionCall(name: string, handler: Handler, transfer: Handler)
      modifies call
      ensures call.View() == Handle(old(call.View()), cfg, FunctionCall(name, handler, transfer))
    {
      DispatchCall(name, handler, transfer);
    }
  }

  // -- Whole calls ------------------------------------------------------

  /** `n` is the length of the longest suffix of `flags` that is all true. */
  predicate TrailingRun(flags: seq<bool>, n: nat) {
    && n <= |flags|
    && (forall i | |flags| - n <= i < |flags| :: flags[i])
    && (n == |flags| || !flags[|flags| - n - 1])
  }

  function Failed(history: seq<ToolOutcome>): seq<bool> {
    seq(|history|, i requires 0 <= i < |history| => !history[i].status.Ok?)
  }

  function Negative(moods: seq<string>, words: Words): seq<bool> {
    seq(|moods|, i requires 0 <= i < |moods| => ToLower(moods[i]) in words.negative)
  }

  lemma TrailingRunGrows(flags: seq<bool>, n: nat, flag: bool)
    requires TrailingRun(flags, n)
    ensures TrailingRun(flags + [flag], if flag then n + 1 else 0)
  {
  }

  predicate Counted(s: State, words: Words) {
    && TrailingRun(Failed(s.toolHistory), s.consecutiveToolFailures)
    && TrailingRun(Negative(s.sentiments, words), s.negativeSentimentTurns)
  }

  /** Escalated exactly once, with one transfer when the tool exists, or not at all; interrupted for safety only. */
  predicate Latched(s: State, cfg: Config) {
    && |s.escalations| == (if s.escalated then 1 else 0)
    && s.transfers == (if s.escalated && TRANSFER_TOOL in cfg.registry then 1 else 0)
    && s.interruptions <= 1 && (s.interruptions == 1 ==> s.escalations == [Safety])
  }

  predicate Inv(s: State, cfg: Config) {
    Counted(s, cfg.words) && Latched(s, cfg)
  }

  lemma RecordToolCounts(s: State, outcome: ToolOutcome, words: Words)
    requires Counted(s, words)
    ensures Counted(s.RecordTool(outcome), words) && SameRecord(s.RecordTool(outcome), s)
    ensures s.RecordTool(outcome).escalated == s.escalated && s.RecordTool(outcome).bookingConfirmed == s.bookingConfirmed
  {
    TrailingRunGrows(Failed(s.toolHistory), s.consecutiveToolFailures, !outcome.status.Ok?);
    assert Failed(s.toolHistory + [outcome]) == Failed(s.toolHistory) + [!outcome.status.Ok?];
  }

  lemma RecordSentimentCounts(s: State, mood: string, words: Words)
    requires Counted(s, words)
    ensures Counted(s.RecordSentiment(mood, words), words)
  {
    var negative := ToLower(mood) in words.negative;
    TrailingRunGrows(Negative(s.sentiments, words), s.negativeSentimentTurns, negative);
    assert Negative(s.sentiments + [mood], words) == Negative(s.sentiments, words) + [negative];
  }

  /** What only an escalation or a stream start changes. */
  predicate SameRecord(a: State, b: State) {
    && a.escalations == b.escalations && a.transfers == b.transfers
    && a.interruptions == b.interruptions && a.hasController == b.hasController
  }

  lemma BeforeCheckKeeps(s: State, cfg: Config, e: Event)
    requires Inv(s, cfg) && BeforeCheck(s, cfg, e).Some?
    ensures Inv(BeforeCheck(s, cfg, e).value, cfg)
    ensures BeforeCheck(s, cfg, e).value.escalated == s.escalated
    ensures SameRecord(BeforeCheck(s, cfg, e).value, s)
  {
    match e
    case StreamStarted =>
    case CallerTranscript(_, _) =>
    case SentimentVerdict(reply, _) => RecordSentimentCounts(s, Normalised(reply), cfg.words);
    case FunctionCall(name, handler, _) => DispatchedKeeps(s, cfg, name, handler);
  }

  lemma DispatchedKeeps(s: State, cfg: Config, name: string, handler: Handler)
    requires Counted(s, cfg.words)
    ensures var d := Dispatched(s, cfg, name, handler);
            && Counted(d, cfg.words) && d.escalated == s.escalated && SameRecord(d, s)
            && (d.bookingConfirmed <==>
                  s.bookingConfirmed || (Invoked(cfg, name, handler).name == BOOKING_TOOL
                                         && Invoked(cfg, name, handler).result.status.Ok?))
  {
    var invocation := Invoked(cfg, name, handler);
    HookKeeps(s, invocation, cfg.words);
    RecordToolCounts(s.OnInvocation(invocation),
                     ToolOutcome(invocation.name, invocation.result.status, invocation.attempts), cfg.words);
  }

  lemma HookKeeps(s: State, invocation: Invocation, words: Words)
    requires Counted(s, words)
    ensures var h := s.OnInvocation(invocation);
            && Counted(h, words) && h.escalated == s.escalated && SameRecord(h, s)
            && (h.bookingConfirmed <==>
                  s.bookingConfirmed || (invocation.name == BOOKING_TOOL && invocation.result.status.Ok?))
  {
  }

  lemma CheckIsLatched(s: State, cfg: Config, transfer: Handler)
    requires s.escalated
    ensures Check(s, cfg, transfer) == s
  {
  }

  /** A check escalates exactly when it is the first to find a reason; then it dispatches once and stops. */
  lemma CheckEffect(s: State, cfg: Config, transfer: Handler)
    requires Inv(s, cfg)
    ensures var c := Check(s, cfg, transfer);
            && Inv(c, cfg)
            && c.bookingConfirmed == s.bookingConfirmed
            && (c.escalated <==> s.escalated || ShouldEscalate(s, cfg).Some?)
            && c.escalations == (if !s.escalated && ShouldEscalate(s, cfg).Some?
                                 then s.escalations + [ShouldEscalate(s, cfg).value] else s.escalations)
            && c.hasController == s.hasController
            && c.interruptions == (if !s.escalated && ShouldEscalate(s, cfg) == Some(Safety) && s.hasController
                                   then s.interruptions + 1 else s.interruptions)
  {
    var decision := ShouldEscalate(s, cfg);
    if !s.escalated && decision.Some? && TRANSFER_TOOL in cfg.registry {
      var latched := Latch(s, decision.value).(transfers := s.transfers + 1);
      DispatchedKeeps(latched, cfg, TRANSFER_TOOL, transfer);
      var after := Dispatched(latched, cfg, TRANSFER_TOOL, transfer);
      CheckIsLatched(after, cfg, transfer);
      assert Check(s, cfg, transfer) == after;
      assert cfg.registry[TRANSFER_TOOL].name == TRANSFER_TOOL;
    }
  }

  lemma {:induction false} InvHolds(cfg: Config, events: seq<Event>)
    ensures Inv(Run(cfg, events), cfg)
  {
    if events != [] {
      var before, e := events[..|events| - 1], events[|events| - 1];
      var s := Run(cfg, before);
      InvHolds(cfg, before);
      if BeforeCheck(s, cfg, e).Some? {
        BeforeCheckKeeps(s, cfg, e);
        CheckEffect(BeforeCheck(s, cfg, e).value, cfg, e.transfer);
      }
    }
  }

  /**
   In every call the two counters are the lengths of the trailing failing and negative
   runs of what was recorded, and the call escalates and transfers at most once.
   */
  lemma CountersAreTrailingRuns(cfg: Config, events: seq<Event>)
    ensures var s := Run(cfg, events);
            && TrailingRun(Failed(s.toolHistory), s.consecutiveToolFailures)
            && TrailingRun(Negative(s.sentiments, cfg.words), s.negativeSentimentTurns)
            && |s.escalations| <= 1 && s.transfers <= 1 && s.interruptions <= 1
            && (s.interruptions == 1 ==> s.escalations == [Safety])
            && (s.transfers == 1 <==> s.escalated && TRANSFER_TOOL in cfg.registry)
  {
    InvHolds(cfg, events);
  }

  /** The reason, if any, with which an event reaches the check. */
  function Finds(s: State, cfg: Config, e: Event): Option<Reason> {
    var before := BeforeCheck(s, cfg, e);
    if before.None? then None else ShouldEscalate(before.value, cfg)
  }

  lemma InterruptsOnce(cfg: Config, events: seq<Event>)
    ensures var s := Run(cfg, events);
            s.interruptions <= 1 && (s.interruptions == 1 ==> s.escalated && s.escalations == [Safety])
  {
    InvHolds(cfg, events);
  }

  /** Event `i` reaches the check with a reason to escalate. */
  predicate Triggers(cfg: Config, events: seq<Event>, i: nat) {
    && i < |events|
    && Finds(Run(cfg, events[..i]), cfg, events[i]).Some?
  }

  function ReasonAt(cfg: Config, events: seq<Event>, i: nat): Reason
    requires Triggers(cfg, events, i)
  {
    Finds(Run(cfg, events[..i]), cfg, events[i]).value
  }

  lemma PrefixTriggers(cfg: Config, events: seq<Event>, n: nat, i: nat)
    requires i < n <= |events|
    ensures Triggers(cfg, events[..n], i) == Triggers(cfg, events, i)
    ensures Triggers(cfg, events, i) ==> ReasonAt(cfg, events[..n], i) == ReasonAt(cfg, events, i)
  {
    assert events[..n][..i] == events[..i];
  }

  lemma LastEvent(cfg: Config, events: seq<Event>)
    requires events != []
    ensures var n := |events| - 1;
            var s, s' := Run(cfg, events[..n]), Run(cfg, events);
            && (s'.escalated <==> s.escalated || Triggers(cfg, events, n))
            && s'.escalations == (if !s.escalated && Triggers(cfg, events, n)
                                  then s.escalations + [ReasonAt(cfg, events, n)] else s.escalations)
            && s'.interruptions == (if !s.escalated && Triggers(cfg, events, n)
                                       && ReasonAt(cfg, events, n).Safety? && s.hasController
                                    then s.interruptions + 1 else s.interruptions)
  {
    InvHolds(cfg, events[..|events| - 1]);
    EventEffect(Run(cfg, events[..|events| - 1]), cfg, events[|events| - 1]);
  }

  lemma EventEffect(s: State, cfg: Config, e: Event)
    requires Inv(s, cfg)
    ensures var s', found := Handle(s, cfg, e), Finds(s, cfg, e);
            && (s'.escalated <==> s.escalated || found.Some?)
            && s'.escalations == (if !s.escalated && found.Some? then s.escalations + [found.value] else s.escalations)
            && s'.interruptions == (if !s.escalated && found == Some(Safety) && s.hasController
                                    then s.interruptions + 1 else s.interruptions)
            && s'.hasController == (s.hasController || e.StreamStarted?)
  {
    if BeforeCheck(s, cfg, e).Some? {
      BeforeCheckKeeps(s, cfg, e);
      CheckEffect(BeforeCheck(s, cfg, e).value, cfg, e.transfer);
    }
  }

  /** The call has escalated exactly when some event triggered. */
  lemma {:induction false} EscalatesIffTriggered(cfg: Config, events: seq<Event>)
    ensures Run(cfg, events).escalated <==> exists i: nat :: Triggers(cfg, events, i)
  {
    if events != [] {
      var n := |events| - 1;
      EscalatesIffTriggered(cfg, events[..n]);
      LastEvent(cfg, events);
      if i: nat :| Triggers(cfg, events[..n], i) {
        PrefixTriggers(cfg, events, n, i);
      }
      if i: nat :| Triggers(cfg, events, i) {
        if i < n {
          PrefixTriggers(cfg, events, n, i);
        }
      }
    }
  }

  lemma {:induction false} LatchStays(cfg: Config, events: seq<Event>, n: nat)
    requires n <= |events| && Run(cfg, events[..n]).escalated
    ensures Run(cfg, events).escalated && Run(cfg, events).escalations == Run(cfg, events[..n]).escalations
    ensures Run(cfg, events).interruptions == Run(cfg, events[..n]).interruptions
    decreases |events|
  {
    if n == |events| {
      assert events[..n] == events;
    } else {
      var before := events[..|events| - 1];
      assert before[..n] == events[..n];
      LatchStays(cfg, before, n);
      LastEvent(cfg, events);
    }
  }

  lemma NotEscalatedBefore(cfg: Config, events: seq<Event>, i: nat)
    requires i <= |events| && forall j: nat | j < i :: !Triggers(cfg, events, j)
    ensures !Run(cfg, events[..i]).escalated
  {
    EscalatesIffTriggered(cfg, events[..i]);
    if j: nat :| Triggers(cfg, events[..i], j) {
      PrefixTriggers(cfg, events, i, j);
    }
  }

  /** It escalates at the first event that triggers, for that event's highest-priority reason, for good. */
  lemma FirstTriggerDecides(cfg: Config, events: seq<Event>, i: nat)
    requires Triggers(cfg, events, i) && forall j: nat | j < i :: !Triggers(cfg, events, j)
    ensures !Run(cfg, events[..i]).escalated && Run(cfg, events[..i + 1]).escalated
    ensures Run(cfg, events).escalations == [ReasonAt(cfg, events, i)]
    ensures Run(cfg, events).interruptions == if ReasonAt(cfg, events, i).Safety? && HasStarted(events[..i]) then 1 else 0
  {
    var upTo := events[..i + 1];
    NotEscalatedBefore(cfg, events, i);
    InvHolds(cfg, events[..i]);
    PrefixTriggers(cfg, events, i + 1, i);
    assert upTo[..i] == events[..i];
    LastEvent(cfg, upTo);
    LatchStays(cfg, events, i + 1);
    ControllerFromStart(cfg, events[..i]);
  }

  predicate HasStarted(events: seq<Event>) {
    exists k :: 0 <= k < |events| && events[k].StreamStarted?
  }

  lemma {:induction false} ControllerFromStart(cfg: Config, events: seq<Event>)
    ensures Run(cfg, events).hasController <==> HasStarted(events)
  {
    if events != [] {
      var n := |events| - 1;
      ControllerFromStart(cfg, events[..n]);
      InvHolds(cfg, events[..n]);
      EventEffect(Run(cfg, events[..n]), cfg, events[n]);
      assert HasStarted(events) <==> HasStarted(events[..n]) || events[n].StreamStarted? by {
        if k :| 0 <= k < n && events[k].StreamStarted? {
          assert events[..n][k].StreamStarted?;
        }
      }
    }
  }

  // -- No false success -------------------------------------------------

  /** Event `i` is a call of the booking tool one of whose permitted attempts returned ok. */
  predicate Books(cfg: Config, events: seq<Event>, i: nat) {
    && i < |events| && events[i].FunctionCall? && events[i].name == BOOKING_TOOL
    && BOOKING_TOOL in cfg.registry
    && exists k | 1 <= k <= |Budgets(cfg.registry[BOOKING_TOOL])| ::
         events[i].handler.On(k).Completed? && events[i].handler.On(k).result.status.Ok?
  }

  lemma BookingStep(s: State, cfg: Config, events: seq<Event>, i: nat)
    requires i < |events| && Inv(s, cfg)
    ensures Handle(s, cfg, events[i]).bookingConfirmed <==> s.bookingConfirmed || Books(cfg, events, i)
  {
    CheckKeepsBooking(s, cfg, events[i]);
    if events[i].FunctionCall? {
      var name, handler := events[i].name, events[i].handler;
      DispatchedKeeps(s, cfg, name, handler);
      if name in cfg.registry {
        OkComesFromTheHandler(cfg.registry[name], handler);
      }
    }
  }

  lemma CheckKeepsBooking(s: State, cfg: Config, e: Event)
    requires Inv(s, cfg)
    ensures Handle(s, cfg, e).bookingConfirmed
            == if e.FunctionCall? then Dispatched(s, cfg, e.name, e.handler).bookingConfirmed else s.bookingConfirmed
  {
    if BeforeCheck(s, cfg, e).Some? {
      BeforeCheckKeeps(s, cfg, e);
      CheckEffect(BeforeCheck(s, cfg, e).value, cfg, e.transfer);
    }
  }

  /** A call is classified as booked exactly when some booking attempt itself returned ok. */
  lemma BookedMeansBooked(cfg: Config, events: seq<Event>)
    ensures Classify(Run(cfg, events)) == "booked" <==> exists i: nat :: Books(cfg, events, i)
  {
    ConfirmedMeansBooked(cfg, events);
  }

  /** And as escalated exactly when it escalated without booking. */
  lemma EscalatedOutcome(cfg: Config, events: seq<Event>)
    ensures Classify(Run(cfg, events)) == "escalated" <==>
              (exists i: nat :: Triggers(cfg, events, i)) && !exists i: nat :: Books(cfg, events, i)
  {
    ConfirmedMeansBooked(cfg, events);
    EscalatesIffTriggered(cfg, events);
    assert "abandoned"[0] != "escalated"[0];
  }

  lemma {:induction false} ConfirmedMeansBooked(cfg: Config, events: seq<Event>)
    ensures Run(cfg, events).bookingConfirmed <==> exists i: nat :: Books(cfg, events, i)
  {
    if events != [] {
      var n := |events| - 1;
      var before := events[..n];
      ConfirmedMeansBooked(cfg, before);
      InvHolds(cfg, before);
      BookingStep(Run(cfg, before), cfg, events, n);
      BooksGrows(cfg, events);
    }
  }

  lemma BooksGrows(cfg: Config, events: seq<Event>)
    requires events != []
    ensures var before := events[..|events| - 1];
            (exists i: nat :: Books(cfg, events, i))
            <==> (exists i: nat :: Books(cfg, before, i)) || Books(cfg, events, |events| - 1)
  {
    var n := |events| - 1;
    var before := events[..n];
    forall i: nat | i < n ensures Books(cfg, events, i) == Books(cfg, before, i) {
      assert before[i] == events[i];
    }
    if i: nat :| Books(cfg, events, i) {
      assert i < n ==> Books(cfg, before, i);
    }
    if i: nat :| Books(cfg, before, i) {
      assert Books(cfg, events, i);
    }
  }

  // -- When a reason holds ----------------------------------------------

  /** The reasons, told from what was said and from the recorded histories. */
  ghost predicate Warrants(reason: Reason, s: State, cfg: Config) {
    match reason
    case Safety => exists k | k in cfg.safetyKeywords :: Says(s.lastCallerText, k)
    case CallerRequest => s.humanRequested || exists p | p in cfg.words.humanRequests :: Says(s.lastCallerText, p)
    case ToolFailure => exists n: nat :: n >= cfg.maxToolFailures && TrailingRun(Failed(s.toolHistory), n)
    case Frustration => exists n: nat :: n >= cfg.maxNegativeTurns && TrailingRun(Negative(s.sentiments, cfg.words), n)
  }

  lemma TrailingRunUnique(flags: seq<bool>, m: nat, n: nat)
    requires TrailingRun(flags, m) && TrailingRun(flags, n)
    ensures m == n
  {
  }

  lemma SaidMeans(text: string, needles: seq<string>)
    ensures (exists k | k in needles :: Contains(ToLower(text), k)) <==> exists k | k in needles :: Says(text, k)
  {
    forall k | k in needles ensures Contains(ToLower(text), k) <==> Says(text, k) {
      ContainsMeansSays(text, k);
    }
  }

  lemma ReasonMeans(s: State, cfg: Config, reason: Reason)
    requires Counted(s, cfg.words)
    ensures Holds(reason, s, cfg) <==> Warrants(reason, s, cfg)
  {
    match reason
    case Safety => SaidMeans(s.lastCallerText, cfg.safetyKeywords);
    case CallerRequest => SaidMeans(s.lastCallerText, cfg.words.humanRequests);
    case ToolFailure =>
      if n: nat :| n >= cfg.maxToolFailures && TrailingRun(Failed(s.toolHistory), n) {
        TrailingRunUnique(Failed(s.toolHistory), n, s.consecutiveToolFailures);
      }
    case Frustration =>
      if n: nat :| n >= cfg.maxNegativeTurns && TrailingRun(Negative(s.sentiments, cfg.words), n) {
        TrailingRunUnique(Negative(s.sentiments, cfg.words), n, s.negativeSentimentTurns);
      }
  }

  /** The decision is the highest-priority reason that is warranted, and none only when none is. */
  lemma DecisionIsWarranted(s: State, cfg: Config, r: Reason)
    requires Counted(s, cfg.words)
    ensures Priority(Safety) < Priority(CallerRequest) < Priority(ToolFailure) < Priority(Frustration)
    ensures ShouldEscalate(s, cfg) == Some(r) <==>
              Warrants(r, s, cfg) && forall q: Reason | Priority(q) < Priority(r) :: !Warrants(q, s, cfg)
    ensures ShouldEscalate(s, cfg) == None <==> forall q: Reason :: !Warrants(q, s, cfg)
  {
    forall q: Reason ensures Holds(q, s, cfg) <==> Warrants(q, s, cfg) {
      ReasonMeans(s, cfg, q);
    }
    DecisionIsHighestPriority(s, cfg, r);
    assert Holds(Safety, s, cfg) == Warrants(Safety, s, cfg) && Holds(Frustration, s, cfg) == Warrants(Frustration, s, cfg);
    assert Holds(CallerRequest, s, cfg) == Warrants(CallerRequest, s, cfg);
    assert Holds(ToolFailure, s, cfg) == Warrants(ToolFailure, s, cfg);
  }

  /** An event that comes to a check: speech, a mood of the list, or any call of a tool. */
  predicate Checked(cfg: Config, e: Event) {
    match e
    case StreamStarted => false
    case CallerTranscript(text, _) => !All(text, IsSpace)
    case SentimentVerdict(mood, _) => Normalised(mood) in cfg.words.sentiments
    case FunctionCall(_, _, _) => true
  }

  lemma CheckedMeans(s: State, cfg: Config, e: Event)
    ensures BeforeCheck(s, cfg, e).Some? <==> Checked(cfg, e)
  {
    if e.CallerTranscript? {
      StripsToNothing(e.text);
    }
  }

  /** Event `i` comes to a check with something that warrants an escalation. */
  ghost predicate WarrantedAt(cfg: Config, events: seq<Event>, i: nat) {
    && i < |events| && Checked(cfg, events[i])
    && BeforeCheck(Run(cfg, events[..i]), cfg, events[i]).Some?
    && exists r :: Warrants(r, BeforeCheck(Run(cfg, events[..i]), cfg, events[i]).value, cfg)
  }

  lemma TriggersMeans(cfg: Config, events: seq<Event>, i: nat)
    ensures Triggers(cfg, events, i) <==> WarrantedAt(cfg, events, i)
  {
    if i < |events| {
      var s, e := Run(cfg, events[..i]), events[i];
      CheckedMeans(s, cfg, e);
      if BeforeCheck(s, cfg, e).Some? {
        InvHolds(cfg, events[..i]);
        BeforeCheckKeeps(s, cfg, e);
        DecisionIsWarranted(BeforeCheck(s, cfg, e).value, cfg, Safety);
      }
    }
  }

  /**
   A call has escalated exactly when, at some event that came to a check, the caller's
   last words held a safety keyword or a request phrase in any letter case, or the
   recorded failures or moods ended in a run as long as the limit.
   */
  lemma EscalatesIffWarranted(cfg: Config, events: seq<Event>)
    ensures Run(cfg, events).escalated <==> exists i: nat :: WarrantedAt(cfg, events, i)
  {
    EscalatesIffTriggered(cfg, events);
    if i: nat :| Triggers(cfg, events, i) {
      TriggersMeans(cfg, events, i);
    }
    if i: nat :| WarrantedAt(cfg, events, i) {
      TriggersMeans(cfg, events, i);
    }
  }

  /** Right after an event that came to a check, a call that has not escalated warrants nothing. */
  lemma NothingWarrantedLeft(cfg: Config, events: seq<Event>, r: Reason)
    requires events != [] && Checked(cfg, events[|events| - 1]) && !Run(cfg, events).escalated
    ensures !Warrants(r, Run(cfg, events), cfg)
  {
    var n := |events| - 1;
    var s, e := Run(cfg, events[..n]), events[n];
    CheckedMeans(s, cfg, e);
    InvHolds(cfg, events[..n]);
    InvHolds(cfg, events);
    BeforeCheckKeeps(s, cfg, e);
    CheckEffect(BeforeCheck(s, cfg, e).value, cfg, e.transfer);
    DecisionIsWarranted(Run(cfg, events), cfg, r);
  }

  /** So a run of failures, or of bad moods, as long as its limit never goes unanswered. */
  lemma StreakEscalates(cfg: Config, events: seq<Event>, n: nat)
    requires events != [] && Checked(cfg, events[|events| - 1])
    requires || (n >= cfg.maxToolFailures && TrailingRun(Failed(Run(cfg, events).toolHistory), n))
             || (n >= cfg.maxNegativeTurns && TrailingRun(Negative(Run(cfg, events).sentiments, cfg.words), n))
    ensures Run(cfg, events).escalated
  {
    if !Run(cfg, events).escalated {
      NothingWarrantedLeft(cfg, events, ToolFailure);
      NothingWarrantedLeft(cfg, events, Frustration);
    }
  }

  /** Nor do the words: what was just said is what the check reads. */
  lemma WordsEscalate(cfg: Config, events: seq<Event>, needle: string)
    requires events != [] && events[|events| - 1].CallerTranscript? && !All(events[|events| - 1].text, IsSpace)
    requires needle in cfg.safetyKeywords || needle in cfg.words.humanRequests
    requires Says(events[|events| - 1].text, needle)
    ensures Run(cfg, events).escalated
  {
    RunRemembers(cfg, events);
    if !Run(cfg, events).escalated {
      NothingWarrantedLeft(cfg, events, Safety);
      NothingWarrantedLeft(cfg, events, CallerRequest);
    }
  }

  // -- What a call remembers --------------------------------------------

  function OutcomeOf(cfg: Config, name: string, handler: Handler): ToolOutcome {
    var invocation := Invoked(cfg, name, handler);
    ToolOutcome(invocation.name, invocation.result.status, invocation.attempts)
  }

  /** What the caller last said, not counting silence. */
  function LastWords(events: seq<Event>): string {
    if events == [] then ""
    else
      var e := events[|events| - 1];
      if e.CallerTranscript? && !All(e.text, IsSpace) then e.text else LastWords(events[..|events| - 1])
  }

  function Turns(events: seq<Event>): nat {
    if events == [] then 0
    else
      var e := events[|events| - 1];
      Turns(events[..|events| - 1]) + if e.CallerTranscript? && !All(e.text, IsSpace) then 1 else 0
  }

  /** The moods of the list the verdicts named, in order. */
  function Moods(cfg: Config, events: seq<Event>): seq<string> {
    if events == [] then []
    else
      var e := events[|events| - 1];
      Moods(cfg, events[..|events| - 1])
      + if e.SentimentVerdict? && Normalised(e.mood) in cfg.words.sentiments then [Normalised(e.mood)] else []
  }

  /** What the last successful service-area check said. */
  function AreaAnswer(cfg: Config, events: seq<Event>): Option<bool> {
    if events == [] then None
    else
      var e := events[|events| - 1];
      if e.FunctionCall? && e.name == AREA_TOOL && Invoked(cfg, e.name, e.handler).result.status.Ok?
      then Invoked(cfg, e.name, e.handler).result.inArea
      else AreaAnswer(cfg, events[..|events| - 1])
  }

  /** The tool calls of the events, and the one transfer behind the event that escalated. */
  function History(cfg: Config, events: seq<Event>): seq<ToolOutcome> {
    if events == [] then []
    else
      var n := |events| - 1;
      var e := events[n];
      History(cfg, events[..n])
      + (if e.FunctionCall? then [OutcomeOf(cfg, e.name, e.handler)] else [])
      + (if Triggers(cfg, events, n) && !Run(cfg, events[..n]).escalated && TRANSFER_TOOL in cfg.registry
         then [OutcomeOf(cfg, TRANSFER_TOOL, e.transfer)] else [])
  }

  lemma CheckFrame(s: State, cfg: Config, transfer: Handler)
    ensures var c := Check(s, cfg, transfer);
            && c.lastCallerText == s.lastCallerText && c.callerTurns == s.callerTurns
            && c.humanRequested == s.humanRequested && c.sentiments == s.sentiments
            && c.inServiceArea == s.inServiceArea
            && c.toolHistory == s.toolHistory
               + if !s.escalated && ShouldEscalate(s, cfg).Some? && TRANSFER_TOOL in cfg.registry
                 then [OutcomeOf(cfg, TRANSFER_TOOL, transfer)] else []
  {
    if !s.escalated && ShouldEscalate(s, cfg).Some? {
      CheckEscalates(s, cfg, ShouldEscalate(s, cfg).value, transfer);
      if TRANSFER_TOOL in cfg.registry {
        var latched := Latch(s, ShouldEscalate(s, cfg).value).(transfers := s.transfers + 1);
        CheckIsLatched(Dispatched(latched, cfg, TRANSFER_TOOL, transfer), cfg, transfer);
        assert cfg.registry[TRANSFER_TOOL].name == TRANSFER_TOOL && TRANSFER_TOOL != AREA_TOOL;
      }
    }
  }

  /** What one event adds to the memory. */
  lemma EventFrame(s: State, cfg: Config, e: Event)
    ensures var h := Handle(s, cfg, e);
            && h.lastCallerText == (if e.CallerTranscript? && !All(e.text, IsSpace) then e.text else s.lastCallerText)
            && h.callerTurns == s.callerTurns + (if e.CallerTranscript? && !All(e.text, IsSpace) then 1 else 0)
            && h.humanRequested == s.humanRequested
            && h.sentiments == s.sentiments + (if e.SentimentVerdict? && Normalised(e.mood) in cfg.words.sentiments
                                               then [Normalised(e.mood)] else [])
            && h.inServiceArea == (if e.FunctionCall? && e.name == AREA_TOOL && Invoked(cfg, e.name, e.handler).result.status.Ok?
                                   then Invoked(cfg, e.name, e.handler).result.inArea else s.inServiceArea)
            && h.toolHistory == s.toolHistory
               + (if e.FunctionCall? then [OutcomeOf(cfg, e.name, e.handler)] else [])
               + (if Finds(s, cfg, e).Some? && !s.escalated && TRANSFER_TOOL in cfg.registry
                  then [OutcomeOf(cfg, TRANSFER_TOOL, e.transfer)] else [])
  {
    CheckedMeans(s, cfg, e);
    if BeforeCheck(s, cfg, e).Some? {
      BeforeFrame(s, cfg, e);
      CheckFrame(BeforeCheck(s, cfg, e).value, cfg, e.transfer);
    }
  }

  lemma BeforeFrame(s: State, cfg: Config, e: Event)
    requires BeforeCheck(s, cfg, e).Some?
    ensures var b := BeforeCheck(s, cfg, e).value;
            && b.lastCallerText == (if e.CallerTranscript? then e.text else s.lastCallerText)
            && b.callerTurns == s.callerTurns + (if e.CallerTranscript? then 1 else 0)
            && b.humanRequested == s.humanRequested && b.escalated == s.escalated
            && b.sentiments == s.sentiments + (if e.SentimentVerdict? then [Normalised(e.mood)] else [])
            && b.inServiceArea == (if e.FunctionCall? && e.name == AREA_TOOL && Invoked(cfg, e.name, e.handler).result.status.Ok?
                                   then Invoked(cfg, e.name, e.handler).result.inArea else s.inServiceArea)
            && b.toolHistory == s.toolHistory + (if e.FunctionCall? then [OutcomeOf(cfg, e.name, e.handler)] else [])
  {
    if e.FunctionCall? {
      assert Invoked(cfg, e.name, e.handler).name == e.name;
    }
  }

  /** In every call: what it goes by is what the events said and did, all of it and in order. */
  lemma {:induction false} RunRemembers(cfg: Config, events: seq<Event>)
    ensures var s := Run(cfg, events);
            && s.lastCallerText == LastWords(events) && s.callerTurns == Turns(events) && !s.humanRequested
            && s.sentiments == Moods(cfg, events) && s.inServiceArea == AreaAnswer(cfg, events)
            && s.toolHistory == History(cfg, events)
  {
    if events != [] {
      var n := |events| - 1;
      RunRemembers(cfg, events[..n]);
      EventFrame(Run(cfg, events[..n]), cfg, events[n]);
    }
  }

  // -- How a call is classified -----------------------------------------

  /** The outcome of every call, told from its events. */
  lemma OutcomeMeans(cfg: Config, events: seq<Event>)
    ensures Classify(Run(cfg, events))
         == if exists i: nat :: Books(cfg, events, i) then "booked"
            else if exists i: nat :: WarrantedAt(cfg, events, i) then "escalated"
            else if AreaAnswer(cfg, events) == Some(false) then "out_of_area"
            else if Turns(events) == 0 then "abandoned"
            else "qualified"
  {
    ConfirmedMeansBooked(cfg, events);
    EscalatesIffWarranted(cfg, events);
    RunRemembers(cfg, events);
  }

  /** A verdict counts in any letter case, with dots, and with blanks around it. */
  lemma VerdictMeans(pre: string, mood: string, dots: string, post: string)
    requires All(pre, IsSpace) && All(post, IsSpace) && All(dots, c => c == '.')
    requires Bare(mood, IsSpace) && Bare(mood, c => c == '.')
    ensures Normalised(pre + (mood + dots) + post) == ToLower(mood)
  {
    var word := mood + dots;
    assert word[0] == mood[0];
    assert word[|word| - 1] == if dots == "" then mood[|mood| - 1] else dots[|dots| - 1];
    StripsAround(pre, word, post, IsSpace);
    StripsAround("", mood, dots, c => c == '.');
    assert "" + mood + dots == word;
  }
}
