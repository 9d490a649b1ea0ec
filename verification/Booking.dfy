/**
 The booking guard: one lock per key and a cache of finished bookings, shared by every
 concurrent dispatch of `book_appointment` in the process.
 */
module Booking {
  import opened Common

  datatype Booking = Booking(uid: string, start: int)

  datatype Entry = Busy | Hit(existing: Booking) | Create

  /** A lock maps to the dispatch holding it. */
  datatype Guard = Guard(locks: map<string, Option<nat>>, results: map<string, Booking>)
  {
    predicate Held(key: string) { key in locks && locks[key].Some? }

    /** Take the key's lock if it is free, then look at the cache before yielding. */
    function Enter(task: nat, key: string): (Guard, Entry) {
      if Held(key) then (this, Busy)
      else if key in results then (this.(locks := locks[key := None]), Hit(results[key]))
      else (this.(locks := locks[key := Some(task)]), Create)
    }

    function Finished(key: string, booking: Booking): Guard {
      this.(locks := locks[key := None], results := results[key := booking])
    }

    function Abandoned(key: string): Guard {
      this.(locks := locks[key := None])
    }
  }

  class BookingGuard {
    var locks: map<string, Option<nat>>
    var results: map<string, Booking>

    ghost function View(): Guard
      reads this
    {
      Guard(locks, results)
    }

    constructor ()
      ensures View() == Guard(map[], map[])
    {
      locks, results := map[], map[];
    }

    method LockFor(key: string) returns (holder: Option<nat>)
      modifies this`locks
      ensures locks == (if key in old(locks) then old(locks) else old(locks)[key := None])
      ensures key in locks && holder == locks[key]
    {
      if key !in locks {
        locks := locks[key := None];
      }
      holder := locks[key];
    }

    method Enter(task: nat, key: string) returns (entry: Entry)
      modifies this
      ensures View() == old(View()).Enter(task, key).0 && entry == old(View()).Enter(task, key).1
    {
      var holder := LockFor(key);
      if holder.Some? {
        return Busy;
      }
      locks := locks[key := Some(task)];
      if key in results {
        entry := Hit(results[key]);
        locks := locks[key := None];
      } else {
        entry := Create;
      }
    }

    method Store(key: string, booking: Booking)
      modifies this
      ensures View() == old(View()).Finished(key, booking)
    {
      results := results[key := booking];
      locks := locks[key := None];
    }

    method Release(key: string)
      modifies this
      ensures View() == old(View()).Abandoned(key)
    {
      locks := locks[key := None];
    }
  }

  // -- Concurrent dispatches --------------------------------------------

  datatype Phase = Arrived | Creating | Booked(booking: Booking, deduplicated: bool) | Failed

  /** `created` is what `create_booking` returned to this dispatch, if it did. */
  datatype Task = Task(key: string, phase: Phase, created: Option<Booking>)

  datatype World = World(guard: Guard, tasks: map<nat, Task>)

  datatype Step =
    | Dispatched(task: nat, key: string)
    | Enters(task: nat)
    | CreateReturns(task: nat, booking: Booking)
    | CreateRaises(task: nat)
    | Cancelled(task: nat)

  predicate Enabled(w: World, step: Step) {
    match step
    case Dispatched(t, _) => t !in w.tasks
    case Enters(t) => t in w.tasks && w.tasks[t].phase.Arrived?
    case CreateReturns(t, _) => t in w.tasks && w.tasks[t].phase.Creating?
    case CreateRaises(t) => t in w.tasks && w.tasks[t].phase.Creating?
    case Cancelled(t) => t in w.tasks && (w.tasks[t].phase.Arrived? || w.tasks[t].phase.Creating?)
  }

  function Apply(w: World, step: Step): World
    requires Enabled(w, step)
  {
    match step
    case Dispatched(t, key) => w.(tasks := w.tasks[t := Task(key, Arrived, None)])
    case Enters(t) =>
      var task := w.tasks[t];
      var (guard, entry) := w.guard.Enter(t, task.key);
      var phase := match entry
        case Busy => Arrived
        case Hit(existing) => Booked(existing, true)
        case Create => Creating;
      World(guard, w.tasks[t := task.(phase := phase)])
    case CreateReturns(t, booking) =>
      var task := w.tasks[t];
      World(w.guard.Finished(task.key, booking), w.tasks[t := Task(task.key, Booked(booking, false), Some(booking))])
    case CreateRaises(t) =>
      var task := w.tasks[t];
      World(w.guard.Abandoned(task.key), w.tasks[t := task.(phase := Failed)])
    case Cancelled(t) =>
      var task := w.tasks[t];
      World(if task.phase.Creating? then w.guard.Abandoned(task.key) else w.guard, w.tasks[t := task.(phase := Failed)])
  }

  function Do(w: World, step: Step): World {
    if Enabled(w, step) then Apply(w, step) else w
  }

  function Exec(steps: seq<Step>): World {
    if steps == [] then World(Guard(map[], map[]), map[])
    else Do(Exec(steps[..|steps| - 1]), steps[|steps| - 1])
  }

  predicate TaskInv(w: World, t: nat)
    requires t in w.tasks
  {
    var task, guard := w.tasks[t], w.guard;
    && (task.phase.Creating? ==>
          task.key in guard.locks && guard.locks[task.key] == Some(t) && task.key !in guard.results)
    && (task.created.Some? ==> task.key in guard.results && guard.results[task.key] == task.created.value)
    && (task.phase.Booked? ==> task.key in guard.results && guard.results[task.key] == task.phase.booking)
    && (task.phase.Booked? && !task.phase.deduplicated ==> task.created == Some(task.phase.booking))
    && (task.created.Some? ==> task.phase == Booked(task.created.value, false))
  }

  predicate LockInv(w: World) {
    forall key | key in w.guard.locks && w.guard.Held(key) ::
      var t := w.guard.locks[key].value;
      t in w.tasks && w.tasks[t].key == key && w.tasks[t].phase.Creating?
  }

  ghost predicate CreatedBy(w: World, key: string, t: nat) {
    t in w.tasks && w.tasks[t].key == key && key in w.guard.results && w.tasks[t].created == Some(w.guard.results[key])
  }

  ghost predicate Inv(w: World) {
    && (forall t | t in w.tasks :: TaskInv(w, t))
    && LockInv(w)
    && (forall t, u | t in w.tasks && u in w.tasks && w.tasks[t].key == w.tasks[u].key
                      && w.tasks[t].created.Some? && w.tasks[u].created.Some? :: t == u)
    && (forall key | key in w.guard.results :: exists t :: CreatedBy(w, key, t))
  }

  lemma TaskInvStep(w: World, step: Step, t: nat)
    requires Inv(w) && Enabled(w, step) && t in Apply(w, step).tasks
    ensures TaskInv(Apply(w, step), t)
  {
    if t in w.tasks {
      assert TaskInv(w, t);
    }
    if !step.Dispatched? {
      assert TaskInv(w, step.task);
    }
  }

  lemma CreatedByStep(w: World, step: Step, key: string)
    requires Inv(w) && Enabled(w, step) && key in Apply(w, step).guard.results
    ensures exists t :: CreatedBy(Apply(w, step), key, t)
  {
    if step.CreateReturns? && key == w.tasks[step.task].key {
      assert CreatedBy(Apply(w, step), key, step.task);
    } else {
      var t :| CreatedBy(w, key, t);
      assert TaskInv(w, t);
      assert CreatedBy(Apply(w, step), key, t);
    }
  }

  lemma LockInvStep(w: World, step: Step)
    requires Inv(w) && Enabled(w, step)
    ensures LockInv(Apply(w, step))
  {
    if !step.Dispatched? {
      assert TaskInv(w, step.task);
    }
  }

  lemma SingleCreatorStep(w: World, step: Step, t: nat, u: nat)
    requires Inv(w) && Enabled(w, step)
    requires var tasks := Apply(w, step).tasks;
             && t in tasks && u in tasks && tasks[t].key == tasks[u].key
             && tasks[t].created.Some? && tasks[u].created.Some?
    ensures t == u
  {
    if step.CreateReturns? {
      assert TaskInv(w, step.task);
      assert t in w.tasks ==> TaskInv(w, t);
      assert u in w.tasks ==> TaskInv(w, u);
    }
  }

  lemma InvStep(w: World, step: Step)
    requires Inv(w) && Enabled(w, step)
    ensures Inv(Apply(w, step))
  {
    var w' := Apply(w, step);
    forall t | t in w'.tasks ensures TaskInv(w', t) { TaskInvStep(w, step, t); }
    forall key | key in w'.guard.results ensures exists t :: CreatedBy(w', key, t) { CreatedByStep(w, step, key); }
    LockInvStep(w, step);
    forall t, u | t in w'.tasks && u in w'.tasks && w'.tasks[t].key == w'.tasks[u].key
                  && w'.tasks[t].created.Some? && w'.tasks[u].created.Some?
      ensures t == u
    {
      SingleCreatorStep(w, step, t, u);
    }
  }

  lemma {:induction false} InvHolds(steps: seq<Step>)
    ensures Inv(Exec(steps))
  {
    if steps != [] {
      var before := steps[..|steps| - 1];
      InvHolds(before);
      if Enabled(Exec(before), steps[|steps| - 1]) {
        InvStep(Exec(before), steps[|steps| - 1]);
      }
    }
  }

  /**
   Any two dispatches of one key, over every interleaving of dispatches, failures and
   cancellations: they are never both creating, `create_booking` never returns to both,
   they are never told different bookings, and at most one is told its booking is new.
   */
  lemma OneBookingPerKey(steps: seq<Step>, t: nat, u: nat)
    requires var tasks := Exec(steps).tasks; t in tasks && u in tasks && tasks[t].key == tasks[u].key
    ensures var a, b := Exec(steps).tasks[t], Exec(steps).tasks[u];
            && (a.phase.Creating? && b.phase.Creating? ==> t == u)
            && (a.created.Some? && b.created.Some? ==> t == u)
            && (a.phase.Creating? ==> b.created.None?)
            && (a.phase.Booked? && b.phase.Booked? ==>
                  && a.phase.booking == b.phase.booking
                  && (!a.phase.deduplicated && !b.phase.deduplicated ==> t == u))
  {
    InvHolds(steps);
    assert TaskInv(Exec(steps), t) && TaskInv(Exec(steps), u);
  }

  /** Nobody is told of a booking that was not created, for that key, by some dispatch. */
  lemma EveryBookingWasCreated(steps: seq<Step>, t: nat)
    requires t in Exec(steps).tasks && Exec(steps).tasks[t].phase.Booked?
    ensures var tasks := Exec(steps).tasks;
            exists u :: u in tasks && tasks[u].key == tasks[t].key && tasks[u].created == Some(tasks[t].phase.booking)
  {
    InvHolds(steps);
    assert TaskInv(Exec(steps), t);
    var u :| CreatedBy(Exec(steps), Exec(steps).tasks[t].key, u);
  }

  /** The lock is never leaked: a key no task is creating for can be entered. */
  lemma LockNeverLeaks(steps: seq<Step>, key: string)
    ensures Exec(steps).guard.Held(key) <==>
            exists t :: t in Exec(steps).tasks && Exec(steps).tasks[t].key == key && Exec(steps).tasks[t].phase.Creating?
  {
    InvHolds(steps);
    var w := Exec(steps);
    if t :| t in w.tasks && w.tasks[t].key == key && w.tasks[t].phase.Creating? {
      assert TaskInv(w, t);
    }
  }

  /** The dispatch that created the booking, and no other, is told that it is new. */
  lemma CreatorIsToldNew(steps: seq<Step>, t: nat)
    requires t in Exec(steps).tasks
    ensures var task := Exec(steps).tasks[t];
            && (task.created.Some? ==> task.phase == Booked(task.created.value, false))
            && (task.phase.Booked? && !task.phase.deduplicated ==> task.created == Some(task.phase.booking))
  {
    InvHolds(steps);
    assert TaskInv(Exec(steps), t);
  }

  ghost predicate SomeoneCreating(w: World, key: string) {
    exists t :: t in w.tasks && w.tasks[t].key == key && w.tasks[t].phase.Creating?
  }

  /**
   Nothing stands in a dispatch's way but another one creating: when it gets its turn it
   is told the booking of its key, if anyone has created one, and else goes on to create.
   */
  lemma EntryDecides(steps: seq<Step>, t: nat)
    requires Enabled(Exec(steps), Enters(t))
    ensures var w, phase := Exec(steps), Do(Exec(steps), Enters(t)).tasks[t].phase;
            var key := w.tasks[t].key;
            && (SomeoneCreating(w, key) ==> phase == Arrived)
            && (!SomeoneCreating(w, key) ==>
                  if exists u, b :: u in w.tasks && w.tasks[u].key == key && w.tasks[u].created == Some(b)
                  then exists u, b :: u in w.tasks && w.tasks[u].key == key && w.tasks[u].created == Some(b)
                                      && phase == Booked(b, true)
                  else phase == Creating)
  {
    var w, key := Exec(steps), Exec(steps).tasks[t].key;
    InvHolds(steps);
    LockNeverLeaks(steps, key);
    if key in w.guard.results {
      var u :| CreatedBy(w, key, u);
      assert w.tasks[u].created == Some(w.guard.results[key]);
    }
    if u, b :| u in w.tasks && w.tasks[u].key == key && w.tasks[u].created == Some(b) {
      assert TaskInv(w, u);
    }
  }

  /** The step really happened, at some point of the run. */
  predicate Happened(steps: seq<Step>, step: Step) {
    steps != []
    && (|| Happened(steps[..|steps| - 1], step)
        || (steps[|steps| - 1] == step && Enabled(Exec(steps[..|steps| - 1]), step)))
  }

  /** How a dispatch ended, and nothing else ends it so. */
  ghost predicate EndsAsTold(w: World, t: nat, steps: seq<Step>) {
    && (forall b :: Happened(steps, CreateReturns(t, b)) <==> t in w.tasks && w.tasks[t].phase == Booked(b, false))
    && (Happened(steps, CreateRaises(t)) || Happened(steps, Cancelled(t)) <==> t in w.tasks && w.tasks[t].phase == Failed)
  }

  lemma EndStep(w: World, step: Step, t: nat)
    ensures forall b :: (t in Do(w, step).tasks && Do(w, step).tasks[t].phase == Booked(b, false)) <==>
              || (t in w.tasks && w.tasks[t].phase == Booked(b, false))
              || (step == CreateReturns(t, b) && Enabled(w, step))
    ensures (t in Do(w, step).tasks && Do(w, step).tasks[t].phase == Failed) <==>
              || (t in w.tasks && w.tasks[t].phase == Failed)
              || ((step == CreateRaises(t) || step == Cancelled(t)) && Enabled(w, step))
  {
  }

  /** Over every run: new exactly when its own creation returned, failed exactly when that raised or it was cancelled. */
  lemma {:induction false} EndsTold(steps: seq<Step>, t: nat)
    ensures EndsAsTold(Exec(steps), t, steps)
  {
    if steps != [] {
      EndsTold(steps[..|steps| - 1], t);
      EndStep(Exec(steps[..|steps| - 1]), steps[|steps| - 1], t);
    }
  }
}
