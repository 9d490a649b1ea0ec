/**
 The tool envelope and the runner: a handler under its timeout, with its retry, never
 raising.
 */
module Tools {
  import opened Common

  datatype Status = Ok | NotFound | Unavailable | Denied

  /** What the model is told to say: the runner's fixed lines by meaning, or a handler's own words. */
  datatype SpeakHint = NoHint | OfferPerson | OfferCallback | OfferMessage | Words(text: string)

  /** `inArea` stands for the data a service-area check returns. */
  datatype ToolResult = ToolResult(status: Status, inArea: Option<bool>, speakHint: SpeakHint)
  {
    /** Every result that is not ok tells the model what to say. */
    predicate WellFormed() { status.Ok? || (!speakHint.NoHint? && speakHint != Words("")) }
  }

  datatype FailurePolicy = RetryOnce | Degrade | Escalate

  datatype Spec = Spec(name: string, timeoutMs: int, onFailure: FailurePolicy)

  /** `register` files a spec under its own name. */
  type Registry = r: map<string, Spec> | forall n | n in r :: r[n].name == n witness map[]

  datatype HandlerOutcome = Completed(result: ToolResult) | TimedOut | HandlerRaised

  /** What the handler would do on the first and on the second attempt. */
  datatype Handler = Handler(first: HandlerOutcome, second: HandlerOutcome)
  {
    function On(attempt: int): HandlerOutcome { if attempt == 1 then first else second }

    predicate WellFormed() {
      (first.Completed? ==> first.result.WellFormed()) && (second.Completed? ==> second.result.WellFormed())
    }
  }

  datatype Invocation = Invocation(name: string, result: ToolResult, attempts: nat, timedOut: bool)

  function TimeoutHint(spec: Spec): SpeakHint {
    if spec.onFailure.Escalate? then OfferPerson else OfferCallback
  }

  const UNKNOWN_TOOL := ToolResult(Denied, None, OfferMessage)

  function Budgets(spec: Spec): (budgets: seq<int>)
    ensures 1 <= |budgets| <= 2
  {
    [spec.timeoutMs] + if spec.onFailure.Escalate? then [] else [Max(spec.timeoutMs / 2, 100)]
  }

  function Envelope(spec: Spec, outcome: HandlerOutcome): ToolResult {
    match outcome
    case Completed(result) => result
    case TimedOut => ToolResult(Unavailable, None, TimeoutHint(spec))
    case HandlerRaised => ToolResult(Unavailable, None, TimeoutHint(spec))
  }

  /** The number of attempts made: stop at the first ok, or when the budgets run out. */
  function Attempts(spec: Spec, handler: Handler): nat {
    if Envelope(spec, handler.first).status.Ok? then 1 else |Budgets(spec)|
  }

  function Invoke(spec: Spec, handler: Handler): Invocation {
    var n := Attempts(spec, handler);
    Invocation(spec.name, Envelope(spec, handler.On(n)), n,
               handler.first.TimedOut? || (n == 2 && handler.second.TimedOut?))
  }

  function Spent(budgets: seq<int>): int {
    if budgets == [] then 0 else Spent(budgets[..|budgets| - 1]) + budgets[|budgets| - 1]
  }

  method RunTool(spec: Spec, handler: Handler) returns (invocation: Invocation, spentMs: int)
    ensures invocation == Invoke(spec, handler)
    ensures spentMs == Spent(Budgets(spec)[..invocation.attempts])
  {
    var budgets := [spec.timeoutMs];
    if spec.onFailure.RetryOnce? || spec.onFailure.Degrade? {
      budgets := budgets + [Max(spec.timeoutMs / 2, 100)];
    }
    var attempts, timedOut, result := 0, false, None;
    spentMs := 0;
    while attempts < |budgets|
      invariant budgets == Budgets(spec)
      invariant attempts <= |budgets| && spentMs == Spent(budgets[..attempts])
      invariant attempts == 0 ==> result == None && !timedOut
      invariant attempts > 0 ==> result == Some(Envelope(spec, handler.On(attempts))) && !result.value.status.Ok?
      invariant attempts == 2 ==> !Envelope(spec, handler.first).status.Ok?
      invariant timedOut == ((attempts >= 1 && handler.first.TimedOut?) || (attempts == 2 && handler.second.TimedOut?))
    {
      spentMs := spentMs + budgets[attempts];
      assert budgets[..attempts + 1][..attempts] == budgets[..attempts];
      attempts := attempts + 1;
      match handler.On(attempts) {
        case Completed(r) =>
          result := Some(r);
        case TimedOut =>
          timedOut := true;
          result := Some(ToolResult(Unavailable, None, TimeoutHint(spec)));
        case HandlerRaised =>
          result := Some(ToolResult(Unavailable, None, TimeoutHint(spec)));
      }
      if result.value.status.Ok? {
        break;
      }
    }
    invocation := Invocation(spec.name, result.value, attempts, timedOut);
  }

  /**
   An ok result is a handler attempt that returned ok: a timeout or an exception never
   becomes one. And it is ok as soon as some allowed attempt is.
   */
  lemma OkComesFromTheHandler(spec: Spec, handler: Handler)
    ensures Invoke(spec, handler).result.status.Ok? <==>
            exists k | 1 <= k <= |Budgets(spec)| :: handler.On(k).Completed? && handler.On(k).result.status.Ok?
    ensures Invoke(spec, handler).result.status.Ok? ==>
              handler.On(Invoke(spec, handler).attempts) == Completed(Invoke(spec, handler).result)
  {
    if handler.first.Completed? && handler.first.result.status.Ok? {
      assert handler.On(1).Completed?;
    } else if handler.second.Completed? && handler.second.result.status.Ok? {
      assert handler.On(2).Completed?;
    }
  }

  /** One or two attempts, whose budgets never exceed the timeout and half of it, or 100 ms. */
  lemma AttemptsAndBudgets(spec: Spec, handler: Handler)
    requires spec.timeoutMs > 0
    ensures 1 <= Invoke(spec, handler).attempts <= 2
    ensures spec.onFailure.Escalate? ==> Invoke(spec, handler).attempts == 1
    ensures Spent(Budgets(spec)[..Invoke(spec, handler).attempts]) <= spec.timeoutMs + Max(spec.timeoutMs / 2, 100)
  {
    var b := Budgets(spec);
    assert b[..1] == [spec.timeoutMs] && Spent([spec.timeoutMs]) == spec.timeoutMs + Spent([spec.timeoutMs][..0]);
    if |b| == 2 {
      assert b[..2] == b && b[..1] == b[..|b| - 1];
    }
  }

  /** With well-formed handlers, whatever is not ok carries a hint. */
  lemma FailuresCarryHints(spec: Spec, handler: Handler)
    requires handler.WellFormed()
    ensures Invoke(spec, handler).result.WellFormed() && UNKNOWN_TOOL.WellFormed()
  {
  }

  /**
   What a run comes to: a second attempt exactly when the first was not ok and the policy
   gives one; the last attempt's own result, or one that says the tool is unavailable and
   what to offer; whether any attempt timed out; and the time allowed, attempt by attempt.
   */
  lemma RunMeans(spec: Spec, handler: Handler)
    ensures var run := Invoke(spec, handler);
            var firstOk := handler.first.Completed? && handler.first.result.status.Ok?;
            && run.name == spec.name
            && run.attempts == (if firstOk || spec.onFailure.Escalate? then 1 else 2)
            && (match handler.On(run.attempts)
                case Completed(result) => run.result == result
                case TimedOut => run.result == Gone(spec)
                case HandlerRaised => run.result == Gone(spec))
            && (run.timedOut <==> exists k | 1 <= k <= run.attempts :: handler.On(k).TimedOut?)
            && Spent(Budgets(spec)[..run.attempts])
               == spec.timeoutMs + (if run.attempts == 1 then 0 else Max(spec.timeoutMs / 2, 100))
  {
    var b := Budgets(spec);
    assert b[..1] == [spec.timeoutMs] && Spent([spec.timeoutMs]) == Spent([spec.timeoutMs][..0]) + spec.timeoutMs;
    if |b| == 2 {
      assert b[..2] == b && b[..|b| - 1] == b[..1];
    }
    assert handler.On(1) == handler.first && handler.On(2) == handler.second;
  }

  /** The tool did not answer: to a person when it escalates, a callback otherwise. */
  function Gone(spec: Spec): ToolResult {
    ToolResult(Unavailable, None, if spec.onFailure == Escalate then OfferPerson else OfferCallback)
  }
}
