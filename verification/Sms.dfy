/**
 Outbound SMS: the suppression check, the claim row, the unsafe-write retry and the
 delivery mark, for any number of calls of `send_sms` running at once.
 */
module Sms {
  import opened Common
  import opened Resilience

  datatype Request = Request(clientId: string, dedupeKey: string, to: string)

  datatype Row = Row(clientId: string, dedupeKey: string, to: string, delivered: bool)

  // -- The tables -------------------------------------------------------

  datatype Tables = Tables(sends: map<nat, Row>, nextId: nat, optedOut: set<(string, string)>)
  {
    predicate Claimed(clientId: string, dedupeKey: string) {
      exists id | id in sends :: sends[id].clientId == clientId && sends[id].dedupeKey == dedupeKey
    }

    /** Insert, or do nothing when the unique key is taken. */
    function ClaimSend(r: Request): (Tables, Option<nat>) {
      if Claimed(r.clientId, r.dedupeKey) then (this, None)
      else (this.(sends := sends[nextId := Row(r.clientId, r.dedupeKey, r.to, false)], nextId := nextId + 1),
            Some(nextId))
    }

    function MarkDelivered(id: nat): Tables {
      if id in sends then this.(sends := sends[id := sends[id].(delivered := true)]) else this
    }

    function MarkOptedOut(clientId: string, phone: string): Tables {
      this.(optedOut := optedOut + {(clientId, phone)})
    }

    /** The constraint the database enforces, and ids it has not handed out yet. */
    predicate UniqueKeys() {
      && (forall id | id in sends :: id < nextId)
      && (forall a, b | a in sends && b in sends
                        && sends[a].clientId == sends[b].clientId && sends[a].dedupeKey == sends[b].dedupeKey :: a == b)
    }
  }

  class Database {
    var sends: map<nat, Row>
    var nextId: nat
    var optedOut: set<(string, string)>

    ghost function View(): Tables
      reads this
    {
      Tables(sends, nextId, optedOut)
    }

    constructor ()
      ensures View() == Tables(map[], 0, {}) && View().UniqueKeys()
    {
      sends, nextId, optedOut := map[], 0, {};
    }

    method ClaimSmsSend(r: Request) returns (claim: Option<nat>)
      requires View().UniqueKeys()
      modifies this
      ensures (View(), claim) == old(View()).ClaimSend(r) && View().UniqueKeys()
      ensures claim.Some? <==> !old(View()).Claimed(r.clientId, r.dedupeKey)
      ensures claim.Some? ==> claim.value !in old(sends) && View().Claimed(r.clientId, r.dedupeKey)
    {
      if exists id | id in sends :: sends[id].clientId == r.clientId && sends[id].dedupeKey == r.dedupeKey {
        return None;
      }
      claim := Some(nextId);
      sends := sends[nextId := Row(r.clientId, r.dedupeKey, r.to, false)];
      nextId := nextId + 1;
      assert sends[claim.value].clientId == r.clientId;
    }

    method MarkSmsDelivered(id: nat)
      requires View().UniqueKeys()
      modifies this
      ensures View() == old(View()).MarkDelivered(id) && View().UniqueKeys()
    {
      if id in sends {
        sends := sends[id := sends[id].(delivered := true)];
      }
    }

    method IsSuppressed(clientId: string, phone: string) returns (suppressed: bool)
      ensures suppressed <==> (clientId, phone) in View().optedOut
    {
      suppressed := (clientId, phone) in optedOut;
    }

    method MarkOptedOut(clientId: string, phone: string)
      modifies this
      ensures View() == old(View()).MarkOptedOut(clientId, phone)
    {
      optedOut := optedOut + {(clientId, phone)};
    }
  }

  // -- Concurrent calls -------------------------------------------------

  /** What ends a call from outside its own outcome. */
  datatype Trouble = Cancelled | DatabaseFails | BodyNotObject

  /** Where one call of `send_sms` stands; `Crashed` is when it raised or was cancelled. */
  datatype Phase = Begun | Opened | Unclaimed | Sending(attempt: int) | Reporting | Done(result: bool) | Crashed

  /** `accepted` counts the sends of this call that the provider took. */
  datatype Call = Call(request: Request, phase: Phase, claim: Option<nat>, accepted: nat)
  {
    predicate Guarded() { request.clientId != "" && request.dedupeKey != "" }

    predicate PastClaim() { accepted > 0 || phase.Sending? || phase.Reporting? || phase == Done(true) }
  }

  datatype World = World(configured: bool, tables: Tables, calls: map<nat, Call>)

  datatype Step =
    | Arrives(call: nat, request: Request)
    | ChecksConfig(call: nat)
    | ChecksSuppression(call: nat)
    | Claims(call: nat)
    | Sends(call: nat, outcome: Outcome, accepted: bool)
    | Reports(call: nat)
    | Crashes(call: nat, trouble: Trouble)
    | OptsOut(clientId: string, phone: string)

  /** The assumption about the provider: a refusal or a failed connect was not accepted. */
  predicate Enabled(w: World, step: Step) {
    match step
    case Arrives(c, _) => c !in w.calls
    case ChecksConfig(c) => c in w.calls && w.calls[c].phase.Begun?
    case ChecksSuppression(c) => c in w.calls && w.calls[c].phase.Opened?
    case Claims(c) => c in w.calls && w.calls[c].phase.Unclaimed?
    case Sends(c, o, accepted) =>
      c in w.calls && w.calls[c].phase.Sending? && (accepted ==> !PreDelivery(o))
    case Reports(c) => c in w.calls && w.calls[c].phase.Reporting?
    case Crashes(c, trouble) => c in w.calls && CanHit(trouble, w.calls[c])
    case OptsOut(_, _) => true
  }

  /** The database is used to check, to claim, and by a call with a claim to report. */
  predicate CanHit(trouble: Trouble, call: Call) {
    match trouble
    case Cancelled => !call.phase.Done? && !call.phase.Crashed?
    case DatabaseFails => call.phase.Opened? || call.phase.Unclaimed? || (call.phase.Reporting? && call.claim.Some?)
    case BodyNotObject => call.phase.Reporting?
  }

  /**
   This outcome of this attempt leaves `send_sms` as an exception: it is one that the
   client library did not raise, or a retry is due and its `Retry-After` cannot be used.
   */
  predicate RaisesOut(o: Outcome, attempt: int) {
    || o == Raised(OtherError)
    || (attempt < UNSAFE_WRITE.attempts && Retryable(UNSAFE_WRITE, o) && BadHint(o))
  }

  /** After a send: another attempt under the unsafe policy, or what the caller does with the outcome. */
  function AfterSend(o: Outcome, attempt: int): Phase {
    if RaisesOut(o, attempt) then Crashed
    else if attempt < UNSAFE_WRITE.attempts && Retryable(UNSAFE_WRITE, o) then Sending(attempt + 1)
    else match o
      case Raised(_) => Done(false)
      case Response(status, _) => if status >= 400 then Done(false) else Reporting
  }

  function Concluded(result: Result): Phase {
    match result
    case Returned(o) => if o.Response? && o.status >= 400 then Done(false) else Reporting
    case Propagated(f) => if f.OtherError? then Crashed else Done(false)
    case Unreachable => Crashed
    case SleepRefused => Crashed
    case HintRaised => Crashed
  }

  /** A call's sends are the retry loop, one attempt a step. */
  lemma SendsFollowTheLoop(send: int -> Outcome, draw: int -> real, n: int)
    requires 1 <= n <= UNSAFE_WRITE.attempts
    ensures var run := Attempt(UNSAFE_WRITE, send, draw, n, false);
            AfterSend(send(n), n) == if run.sends == 1 then Concluded(run.result) else Sending(n + 1)
  {
    if n < UNSAFE_WRITE.attempts {
      SendsAtLeastOnce(UNSAFE_WRITE, send, draw, n + 1);
    }
  }

  function Moved(w: World, c: nat, call: Call): World {
    w.(calls := w.calls[c := call])
  }

  function Apply(w: World, step: Step): World
    requires Enabled(w, step)
  {
    match step
    case Arrives(c, r) => Moved(w, c, Call(r, Begun, None, 0))
    case ChecksConfig(c) =>
      var call := w.calls[c];
      Moved(w, c, call.(phase :=
        if !w.configured then Done(false) else if call.request.clientId == "" then Sending(1) else Opened))
    case ChecksSuppression(c) =>
      var call := w.calls[c];
      Moved(w, c, call.(phase :=
        if (call.request.clientId, call.request.to) in w.tables.optedOut then Done(false)
        else if call.request.dedupeKey == "" then Sending(1) else Unclaimed))
    case Claims(c) =>
      var call := w.calls[c];
      var (tables, claim) := w.tables.ClaimSend(call.request);
      Moved(w.(tables := tables), c,
            if claim.None? then call.(phase := Done(false)) else call.(claim := claim, phase := Sending(1)))
    case Sends(c, o, accepted) =>
      var call := w.calls[c];
      Moved(w, c, call.(phase := AfterSend(o, call.phase.attempt),
                        accepted := if accepted then call.accepted + 1 else call.accepted))
    case Reports(c) =>
      var call := w.calls[c];
      Moved(w.(tables := if call.claim.Some? then w.tables.MarkDelivered(call.claim.value) else w.tables),
            c, call.(phase := Done(true)))
    case Crashes(c, _) => Moved(w, c, w.calls[c].(phase := Crashed))
    case OptsOut(client, phone) => w.(tables := w.tables.MarkOptedOut(client, phone))
  }

  function Do(w: World, step: Step): World {
    if Enabled(w, step) then Apply(w, step) else w
  }

  function Exec(configured: bool, steps: seq<Step>): World {
    if steps == [] then World(configured, Tables(map[], 0, {}), map[])
    else Do(Exec(configured, steps[..|steps| - 1]), steps[|steps| - 1])
  }

  // -- At most once -----------------------------------------------------

  /** A call past its last possible refusal holds a claim; until then nothing was accepted. */
  predicate CallInv(call: Call, tables: Tables) {
    && call.accepted <= 1
    && (call.phase.Begun? || call.phase.Opened? || call.phase.Unclaimed? ==> call.claim.None?)
    && (call.phase.Begun? || call.phase.Opened? || call.phase.Unclaimed? || call.phase.Sending? ==> call.accepted == 0)
    && (call.Guarded() && call.PastClaim() ==> call.claim.Some?)
    && (call.claim.Some? ==>
          && call.claim.value in tables.sends
          && tables.sends[call.claim.value].clientId == call.request.clientId
          && tables.sends[call.claim.value].dedupeKey == call.request.dedupeKey)
  }

  predicate Inv(w: World) {
    && w.tables.UniqueKeys()
    && (forall c | c in w.calls :: CallInv(w.calls[c], w.tables))
    && (forall c, d | c in w.calls && d in w.calls && c != d && w.calls[c].claim.Some? ::
          w.calls[c].claim != w.calls[d].claim)
  }

  /** One call moves and the tables only grow: enough to look at that call. */
  lemma InvMove(w: World, w': World, c: nat)
    requires Inv(w) && c in w'.calls && w' == Moved(w.(tables := w'.tables), c, w'.calls[c])
    requires w'.tables.UniqueKeys() && CallInv(w'.calls[c], w'.tables)
    requires forall id | id in w.tables.sends ::
               && id in w'.tables.sends
               && w'.tables.sends[id].clientId == w.tables.sends[id].clientId
               && w'.tables.sends[id].dedupeKey == w.tables.sends[id].dedupeKey
    requires || w'.calls[c].claim.None?
             || (c in w.calls && w'.calls[c].claim == w.calls[c].claim)
             || w'.calls[c].claim.value !in w.tables.sends
    ensures Inv(w')
  {
  }

  lemma InvStep(w: World, step: Step)
    requires Inv(w) && Enabled(w, step)
    ensures Inv(Apply(w, step))
  {
    if step.Claims? {
      InvClaims(w, step.call);
    } else if step.Reports? {
      InvReports(w, step.call);
    } else if !step.OptsOut? {
      assert CallInv(Apply(w, step).calls[step.call], w.tables);
      InvMove(w, Apply(w, step), step.call);
    }
  }

  lemma InvClaims(w: World, c: nat)
    requires Inv(w) && Enabled(w, Claims(c))
    ensures Inv(Apply(w, Claims(c)))
  {
    var w' := Apply(w, Claims(c));
    assert CallInv(w.calls[c], w.tables) && CallInv(w'.calls[c], w'.tables);
    InvMove(w, w', c);
  }

  lemma InvReports(w: World, c: nat)
    requires Inv(w) && Enabled(w, Reports(c))
    ensures Inv(Apply(w, Reports(c)))
  {
    var w' := Apply(w, Reports(c));
    assert CallInv(w.calls[c], w.tables) && CallInv(w'.calls[c], w'.tables);
    InvMove(w, w', c);
  }

  lemma {:induction false} InvHolds(configured: bool, steps: seq<Step>)
    ensures Inv(Exec(configured, steps))
  {
    if steps != [] {
      var before := steps[..|steps| - 1];
      InvHolds(configured, before);
      if Enabled(Exec(configured, before), steps[|steps| - 1]) {
        InvStep(Exec(configured, before), steps[|steps| - 1]);
      }
    }
  }

  /**
   For one client and one dedupe key, over every interleaving of calls, retries and
   crashes: at most one message was ever accepted and at most one call returns True.
   */
  lemma AtMostOnce(configured: bool, steps: seq<Step>, c: nat, d: nat)
    requires var calls := Exec(configured, steps).calls;
             && c in calls && d in calls && calls[c].Guarded()
             && calls[c].request.clientId == calls[d].request.clientId
             && calls[c].request.dedupeKey == calls[d].request.dedupeKey
    ensures var calls := Exec(configured, steps).calls;
            && calls[c].accepted <= 1
            && (calls[c].accepted > 0 && calls[d].accepted > 0 ==> c == d)
            && (calls[c].phase == Done(true) && calls[d].phase == Done(true) ==> c == d)
            && (calls[c].phase == Done(true) && calls[d].accepted > 0 ==> c == d)
  {
    InvHolds(configured, steps);
  }

  // -- When a call raises -----------------------------------------------

  /** Step `k` really happened and was a send of call `c` whose outcome left the call as an exception. */
  ghost predicate SendRaises(configured: bool, steps: seq<Step>, c: nat, k: int) {
    && 0 <= k < |steps| && Enabled(Exec(configured, steps[..k]), steps[k])
    && steps[k].Sends? && steps[k].call == c
    && RaisesOut(steps[k].outcome, Exec(configured, steps[..k]).calls[c].phase.attempt)
  }

  ghost predicate HitByTrouble(configured: bool, steps: seq<Step>, c: nat, k: int) {
    0 <= k < |steps| && Enabled(Exec(configured, steps[..k]), steps[k]) && steps[k].Crashes? && steps[k].call == c
  }

  predicate HasCrashed(w: World, c: nat) {
    c in w.calls && w.calls[c].phase.Crashed?
  }

  lemma CrashStep(w: World, step: Step, c: nat)
    ensures HasCrashed(Do(w, step), c) <==>
              || HasCrashed(w, c)
              || (Enabled(w, step) && step.Sends? && step.call == c && RaisesOut(step.outcome, w.calls[c].phase.attempt))
              || (Enabled(w, step) && step.Crashes? && step.call == c)
  {
  }

  lemma CrashPrefix(configured: bool, steps: seq<Step>, c: nat, k: int)
    requires steps != [] && k < |steps| - 1
    ensures SendRaises(configured, steps[..|steps| - 1], c, k) == SendRaises(configured, steps, c, k)
    ensures HitByTrouble(configured, steps[..|steps| - 1], c, k) == HitByTrouble(configured, steps, c, k)
  {
    if 0 <= k {
      assert steps[..|steps| - 1][..k] == steps[..k];
    }
  }

  /**
   A call ends by raising exactly when one of its sends raised something other than an
   `httpx.HTTPError`, or asked for a retry by a header that cannot be used, or it was
   cancelled, or the database failed it, or the accepted response was not a JSON object.
   */
  lemma {:induction false} RaisesIff(configured: bool, steps: seq<Step>, c: nat)
    ensures HasCrashed(Exec(configured, steps), c) <==>
              exists k :: SendRaises(configured, steps, c, k) || HitByTrouble(configured, steps, c, k)
  {
    if steps != [] {
      var n := |steps| - 1;
      RaisesIff(configured, steps[..n], c);
      CrashStep(Exec(configured, steps[..n]), steps[n], c);
      if k :| SendRaises(configured, steps[..n], c, k) || HitByTrouble(configured, steps[..n], c, k) {
        CrashPrefix(configured, steps, c, k);
      }
      if k :| SendRaises(configured, steps, c, k) || HitByTrouble(configured, steps, c, k) {
        if k < n {
          CrashPrefix(configured, steps, c, k);
        }
      }
      var now := Exec(configured, steps[..n]);
      if Enabled(now, steps[n]) && (steps[n].Sends? || steps[n].Crashes?) && steps[n].call == c {
        assert SendRaises(configured, steps, c, n) || HitByTrouble(configured, steps, c, n)
               || (steps[n].Sends? && !RaisesOut(steps[n].outcome, now.calls[c].phase.attempt));
      }
    }
  }

  /** With no trouble from outside, it raises exactly when its last send's outcome does. */
  lemma UntroubledRaisesIff(configured: bool, steps: seq<Step>, c: nat)
    requires forall k | 0 <= k < |steps| && steps[k].Crashes? :: steps[k].call != c
    ensures HasCrashed(Exec(configured, steps), c) <==> exists k :: SendRaises(configured, steps, c, k)
    ensures forall k, j | SendRaises(configured, steps, c, k) && k < j < |steps| && steps[j].Sends? && steps[j].call == c ::
              !Enabled(Exec(configured, steps[..j]), steps[j])
  {
    RaisesIff(configured, steps, c);
    forall k, j | SendRaises(configured, steps, c, k) && k < j < |steps| && steps[j].Sends? && steps[j].call == c
      ensures !Enabled(Exec(configured, steps[..j]), steps[j])
    {
      assert steps[..j][..k] == steps[..k];
      assert SendRaises(configured, steps[..j], c, k);
      RaisesIff(configured, steps[..j], c);
    }
  }

  /** One such send, and the call raises although `send_sms` is documented never to. */
  lemma SendSmsCanRaise(request: Request, outcome: Outcome)
    requires request.clientId == "" && outcome in {Raised(OtherError), Response(429, DateOverflows), Response(503, NotFinite)}
    ensures HasCrashed(Exec(true, [Arrives(0, request), ChecksConfig(0), Sends(0, outcome, false)]), 0)
  {
    var steps := [Arrives(0, request), ChecksConfig(0), Sends(0, outcome, false)];
    assert steps[..2] == [Arrives(0, request), ChecksConfig(0)] && steps[..2][..1] == [Arrives(0, request)];
    assert Exec(true, steps[..2][..1]) == Do(Exec(true, []), Arrives(0, request));
    assert Exec(true, steps[..2]) == Do(Exec(true, steps[..2][..1]), ChecksConfig(0));
    assert SendRaises(true, steps, 0, 2);
    RaisesIff(true, steps, 0);
  }

  // -- Suppression ------------------------------------------------------

  /** A call to a number that had opted out before the call checked. */
  predicate Muted(w: World, c: nat) {
    && c in w.calls
    && w.calls[c].request.clientId != ""
    && (w.calls[c].request.clientId, w.calls[c].request.to) in w.tables.optedOut
    && (w.calls[c].phase in {Begun, Opened, Done(false), Crashed})
    && w.calls[c].accepted == 0
  }

  lemma MutedStep(w: World, step: Step, c: nat)
    requires Muted(w, c)
    ensures Muted(Do(w, step), c)
  {
  }

  /** Once a number has opted out, no call that had not yet checked ever reaches the provider. */
  lemma {:induction false} OptOutRespected(configured: bool, steps: seq<Step>, i: nat, c: nat)
    requires i <= |steps| && Muted(Exec(configured, steps[..i]), c)
    ensures Muted(Exec(configured, steps), c)
    decreases |steps|
  {
    if i < |steps| {
      var before := steps[..|steps| - 1];
      assert before[..i] == steps[..i];
      OptOutRespected(configured, before, i, c);
      MutedStep(Exec(configured, before), steps[|steps| - 1], c);
    } else {
      assert steps[..i] == steps;
    }
  }

  // -- What a call returns, and why -------------------------------------

  function SentBy(w: World, step: Step, c: nat): seq<Outcome> {
    if Enabled(w, step) && step.Sends? && step.call == c then [step.outcome] else []
  }

  /** The outcomes of the call's sends that really happened, in order. */
  function Sent(configured: bool, steps: seq<Step>, c: nat): seq<Outcome> {
    if steps == [] then []
    else
      var before, step := steps[..|steps| - 1], steps[|steps| - 1];
      Sent(configured, before, c) + SentBy(Exec(configured, before), step, c)
  }

  /** Trouble from outside has hit the call. */
  predicate Troubled(configured: bool, steps: seq<Step>, c: nat) {
    steps != []
    && (|| Troubled(configured, steps[..|steps| - 1], c)
        || TroubleBy(Exec(configured, steps[..|steps| - 1]), steps[|steps| - 1], c))
  }

  predicate TroubleBy(w: World, step: Step, c: nat) {
    Enabled(w, step) && step.Crashes? && step.call == c
  }

  /** The provider took the message on. */
  predicate Answered(o: Outcome) {
    o.Response? && o.status < 400
  }

  /** Somebody else holds the claim for this call's key. */
  ghost predicate TakenFrom(w: World, call: Call) {
    && call.Guarded() && call.claim.None?
    && exists id | id in w.tables.sends ::
         w.tables.sends[id].clientId == call.request.clientId && w.tables.sends[id].dedupeKey == call.request.dedupeKey
  }

  /** The reasons not to send at all. */
  ghost predicate HasGround(w: World, call: Call) {
    || !w.configured
    || (call.request.clientId != "" && (call.request.clientId, call.request.to) in w.tables.optedOut)
    || TakenFrom(w, call)
  }

  /** Where a call stands, told from what it has sent. */
  ghost predicate Story(w: World, call: Call, sent: seq<Outcome>, troubled: bool) {
    match call.phase
    case Begun => sent == []
    case Opened => sent == [] && call.request.clientId != ""
    case Unclaimed => sent == [] && call.Guarded()
    case Sending(n) => n == |sent| + 1 && forall o | o in sent :: !Answered(o)
    case Reporting => sent != [] && Answered(sent[|sent| - 1])
    case Done(result) =>
      if result then sent != [] && Answered(sent[|sent| - 1])
      else if sent == [] then HasGround(w, call)
      else !Answered(sent[|sent| - 1])
    case Crashed => troubled || (sent != [] && !Answered(sent[|sent| - 1]))
  }

  ghost predicate StoryOf(w: World, c: nat, sent: seq<Outcome>, troubled: bool) {
    if c in w.calls then Story(w, w.calls[c], sent, troubled) else sent == []
  }

  lemma GroundsStay(w: World, step: Step, call: Call)
    requires w.tables.UniqueKeys() && Enabled(w, step) && HasGround(w, call)
    ensures HasGround(Apply(w, step), call)
  {
    var w' := Apply(w, step);
    if TakenFrom(w, call) {
      var id :| id in w.tables.sends && w.tables.sends[id].clientId == call.request.clientId
                && w.tables.sends[id].dedupeKey == call.request.dedupeKey;
      KeyStays(w, step, id);
      assert id in w'.tables.sends;
    }
  }

  lemma KeyStays(w: World, step: Step, id: nat)
    requires w.tables.UniqueKeys() && Enabled(w, step) && id in w.tables.sends
    ensures id in Apply(w, step).tables.sends
    ensures Apply(w, step).tables.sends[id].clientId == w.tables.sends[id].clientId
    ensures Apply(w, step).tables.sends[id].dedupeKey == w.tables.sends[id].dedupeKey
  {
  }

  /** Another call's step, or an opt-out. */
  lemma StoryKept(w: World, step: Step, c: nat, sent: seq<Outcome>, troubled: bool)
    requires Inv(w) && StoryOf(w, c, sent, troubled) && Enabled(w, step) && (step.OptsOut? || step.call != c)
    ensures StoryOf(Apply(w, step), c, sent, troubled)
  {
    if c in w.calls {
      assert Apply(w, step).calls[c] == w.calls[c];
      if HasGround(w, w.calls[c]) {
        GroundsStay(w, step, w.calls[c]);
      }
    }
  }

  lemma StorySends(w: World, c: nat, o: Outcome, accepted: bool, sent: seq<Outcome>, troubled: bool)
    requires Enabled(w, Sends(c, o, accepted)) && StoryOf(w, c, sent, troubled)
    ensures StoryOf(Apply(w, Sends(c, o, accepted)), c, sent + [o], troubled)
  {
    assert Answered(o) ==> !Retryable(UNSAFE_WRITE, o);
  }

  lemma StoryClaims(w: World, c: nat, sent: seq<Outcome>, troubled: bool)
    requires Enabled(w, Claims(c)) && Inv(w) && StoryOf(w, c, sent, troubled)
    ensures StoryOf(Apply(w, Claims(c)), c, sent, troubled)
  {
    assert CallInv(w.calls[c], w.tables);
  }

  lemma StoryMoves(w: World, step: Step, c: nat, sent: seq<Outcome>, troubled: bool)
    requires Inv(w) && Enabled(w, step) && !step.OptsOut? && step.call == c && !step.Sends? && !step.Claims?
    requires StoryOf(w, c, sent, troubled)
    ensures StoryOf(Apply(w, step), c, sent, troubled || step.Crashes?)
  {
  }

  lemma StoryStep(w: World, step: Step, c: nat, sent: seq<Outcome>, troubled: bool)
    requires Inv(w) && StoryOf(w, c, sent, troubled)
    ensures StoryOf(Do(w, step), c, sent + SentBy(w, step, c), troubled || TroubleBy(w, step, c))
  {
    assert sent + [] == sent;
    if Enabled(w, step) {
      if step.OptsOut? || step.call != c {
        StoryKept(w, step, c, sent, troubled);
      } else if step.Sends? {
        StorySends(w, c, step.outcome, step.accepted, sent, troubled);
      } else if step.Claims? {
        StoryClaims(w, c, sent, troubled);
      } else {
        StoryMoves(w, step, c, sent, troubled);
      }
    }
  }

  lemma {:induction false} StoryHolds(configured: bool, steps: seq<Step>, c: nat)
    ensures StoryOf(Exec(configured, steps), c, Sent(configured, steps, c), Troubled(configured, steps, c))
  {
    if steps != [] {
      var before := steps[..|steps| - 1];
      StoryHolds(configured, before, c);
      InvHolds(configured, before);
      StoryStep(Exec(configured, before), steps[|steps| - 1], c, Sent(configured, before, c), Troubled(configured, before, c));
    }
  }

  predicate Succeeding(w: World, c: nat) {
    c in w.calls && (w.calls[c].phase == Reporting || w.calls[c].phase == Done(true))
  }

  /**
   Over every run: a call that returns True, or is about to, had its last send answered
   below 400. And a call whose last send was so answered never returns False; it reports
   and returns True unless trouble from outside hits it.
   */
  lemma TrueMeansAnswered(configured: bool, steps: seq<Step>, c: nat)
    ensures var w, sent := Exec(configured, steps), Sent(configured, steps, c);
            && (Succeeding(w, c) ==> EndsBelow400(sent))
            && (EndsBelow400(sent) ==> c in w.calls && w.calls[c].phase != Done(false))
            && (EndsBelow400(sent) && !Troubled(configured, steps, c) ==> Succeeding(w, c))
  {
    StoryHolds(configured, steps, c);
    StoryTells(Exec(configured, steps), c, Sent(configured, steps, c), Troubled(configured, steps, c));
  }

  predicate EndsBelow400(sent: seq<Outcome>) {
    sent != [] && sent[|sent| - 1].Response? && sent[|sent| - 1].status < 400
  }

  lemma StoryTells(w: World, c: nat, sent: seq<Outcome>, troubled: bool)
    requires StoryOf(w, c, sent, troubled)
    ensures Succeeding(w, c) ==> EndsBelow400(sent)
    ensures EndsBelow400(sent) ==> c in w.calls && w.calls[c].phase != Done(false)
    ensures EndsBelow400(sent) && !troubled ==> Succeeding(w, c)
  {
    if EndsBelow400(sent) {
      assert sent[|sent| - 1] in sent && Answered(sent[|sent| - 1]);
    }
  }

  /**
   Over every run: a call that returned False without sending had a reason not to, which
   is that nothing is configured, or the number has opted out, or another call holds its
   key. One that returned False after sending had its last send refused or failed.
   */
  lemma FalseHasGround(configured: bool, steps: seq<Step>, c: nat)
    requires c in Exec(configured, steps).calls && Exec(configured, steps).calls[c].phase == Done(false)
    ensures var w, sent := Exec(configured, steps), Sent(configured, steps, c);
            var call := w.calls[c];
            if sent == [] then
              || !configured
              || (call.request.clientId != "" && (call.request.clientId, call.request.to) in w.tables.optedOut)
              || (call.Guarded() && call.claim.None?
                  && w.tables.Claimed(call.request.clientId, call.request.dedupeKey))
            else sent[|sent| - 1].Raised? || sent[|sent| - 1].status >= 400
  {
    StoryHolds(configured, steps, c);
    ConfiguredStays(configured, steps);
    FalseTells(Exec(configured, steps), Exec(configured, steps).calls[c],
               Sent(configured, steps, c), Troubled(configured, steps, c));
  }

  lemma FalseTells(w: World, call: Call, sent: seq<Outcome>, troubled: bool)
    requires Story(w, call, sent, troubled) && call.phase == Done(false)
    ensures sent == [] ==>
              || !w.configured
              || (call.request.clientId != "" && (call.request.clientId, call.request.to) in w.tables.optedOut)
              || (call.Guarded() && call.claim.None?
                  && w.tables.Claimed(call.request.clientId, call.request.dedupeKey))
    ensures sent != [] ==> sent[|sent| - 1].Raised? || sent[|sent| - 1].status >= 400
  {
  }

  lemma {:induction false} ConfiguredStays(configured: bool, steps: seq<Step>)
    ensures Exec(configured, steps).configured == configured
  {
    if steps != [] {
      ConfiguredStays(configured, steps[..|steps| - 1]);
    }
  }

  predicate Idle(w: World) {
    && w.tables.sends == map[]
    && forall c | c in w.calls :: w.calls[c].accepted == 0 && w.calls[c].phase in {Begun, Done(false), Crashed}
  }

  /** Unconfigured, no call ever claims a key or reaches the provider, so all can be replayed later. */
  lemma {:induction false} UnconfiguredTouchesNothing(steps: seq<Step>)
    ensures Idle(Exec(false, steps))
  {
    if steps != [] {
      var before := steps[..|steps| - 1];
      UnconfiguredTouchesNothing(before);
      ConfiguredStays(false, before);
      IdleStep(Exec(false, before), steps[|steps| - 1]);
    }
  }

  lemma IdleStep(w: World, step: Step)
    requires Idle(w) && !w.configured
    ensures Idle(Do(w, step))
  {
  }

  predicate At(w: World, c: nat, phase: Phase) {
    c in w.calls && w.calls[c].phase == phase
  }

  /** A reporting call returns True at its next step, and marks its own row delivered. */
  lemma ReportReturnsTrue(w: World, c: nat)
    requires At(w, c, Reporting)
    ensures Enabled(w, Reports(c)) && At(Do(w, Reports(c)), c, Done(true))
    ensures w.calls[c].claim.Some? && w.calls[c].claim.value in w.tables.sends ==>
              Do(w, Reports(c)).tables.sends[w.calls[c].claim.value].delivered
  {
  }

  /** Row `id` belongs to a call that has returned True. */
  ghost predicate PaidFor(w: World, id: nat) {
    exists c :: At(w, c, Done(true)) && w.calls[c].claim == Some(id)
  }

  ghost predicate DeliveredInv(w: World) {
    && (forall id | id in w.tables.sends :: id < w.tables.nextId)
    && (forall id | id in w.tables.sends :: w.tables.sends[id].delivered <==> PaidFor(w, id))
    && (forall c | c in w.calls && w.calls[c].claim.Some? :: w.calls[c].claim.value < w.tables.nextId)
  }

  lemma PaidStep(w: World, step: Step, id: nat)
    requires Enabled(w, step) && id < w.tables.nextId
    ensures PaidFor(Apply(w, step), id) <==>
              PaidFor(w, id) || (step.Reports? && w.calls[step.call].claim == Some(id))
  {
    var w' := Apply(w, step);
    if c :| At(w, c, Done(true)) && w.calls[c].claim == Some(id) {
      assert At(w', c, Done(true)) && w'.calls[c].claim == Some(id);
    }
    if c :| At(w', c, Done(true)) && w'.calls[c].claim == Some(id) {
      assert At(w, c, Done(true)) || (step.Reports? && step.call == c);
    }
    if step.Reports? && w.calls[step.call].claim == Some(id) {
      assert At(w', step.call, Done(true)) && w'.calls[step.call].claim == Some(id);
    }
  }

  lemma NobodyPaid(w: World, step: Step, id: nat)
    requires DeliveredInv(w) && Enabled(w, step) && step.Claims? && id == w.tables.nextId
    ensures !PaidFor(Apply(w, step), id)
  {
  }

  lemma DeliveredStep(w: World, step: Step)
    requires DeliveredInv(w) && Enabled(w, step)
    ensures DeliveredInv(Apply(w, step))
  {
    var w' := Apply(w, step);
    forall id | id in w'.tables.sends ensures w'.tables.sends[id].delivered <==> PaidFor(w', id) {
      if id in w.tables.sends {
        PaidStep(w, step, id);
        DeliveredFrame(w, step, id);
      } else {
        NobodyPaid(w, step, id);
      }
    }
  }

  lemma DeliveredFrame(w: World, step: Step, id: nat)
    requires Enabled(w, step) && id in w.tables.sends && id < w.tables.nextId
    ensures id in Apply(w, step).tables.sends
    ensures Apply(w, step).tables.sends[id].delivered
            == (w.tables.sends[id].delivered || (step.Reports? && w.calls[step.call].claim == Some(id)))
  {
  }

  /** Over every run a claim row is marked delivered exactly when the call that holds it returned True. */
  lemma {:induction false} DeliveredIffTrue(configured: bool, steps: seq<Step>)
    ensures DeliveredInv(Exec(configured, steps))
  {
    if steps != [] {
      var w := Exec(configured, steps[..|steps| - 1]);
      DeliveredIffTrue(configured, steps[..|steps| - 1]);
      if Enabled(w, steps[|steps| - 1]) {
        DeliveredStep(w, steps[|steps| - 1]);
      }
    }
  }
}
