/**
 How far the caller has got in the audio: one count of what was sent to Twilio, one of
 what came back acknowledged, and where the current item begins.
 `State` is the value; `PlaybackLedger` is the object the bridge updates in place.
 */
module Ledger {
  import opened Common

  const ULAW_BYTES_PER_SECOND := 8000

  /** Whole milliseconds of audio, never negative. */
  function BytesToMs(bytes: int): (ms: nat)
    ensures bytes <= 0 ==> ms == 0
    ensures bytes >= 0 ==> 8 * ms <= bytes < 8 * ms + 8
  {
    if bytes <= 0 then 0 else bytes * 1000 / ULAW_BYTES_PER_SECOND
  }

  datatype State<M(==)> = State(
    marks: map<M, int>,
    played: int,
    queued: int,
    itemId: Option<string>,
    itemStart: int)
  {
    function ChunkSent(mark: M, bytes: int): State<M> {
      this.(queued := queued + bytes, marks := marks[mark := queued + bytes])
    }

    /** Forget the marks the played watermark has passed. */
    function Pruned(): State<M> {
      this.(marks := map m | m in marks && marks[m] > played :: marks[m])
    }

    function Acked(mark: M): State<M> {
      if mark !in marks then this
      else this.(played := Max(played, marks[mark]), marks := marks - {mark}).Pruned()
    }

    function ItemStarted(id: string): State<M> {
      this.(itemId := Some(id), itemStart := queued)
    }

    function Reset(id: Option<string>): State<M> {
      this.(marks := map[], queued := played, itemStart := played, itemId := id)
    }

    function PlayedMs(): nat { BytesToMs(played - itemStart) }

    function UnplayedMs(): nat { BytesToMs(queued - played) }

    predicate Consistent() {
      && 0 <= played <= queued
      && itemStart <= queued
      && forall m | m in marks :: played < marks[m] <= queued
    }
  }

  function Initial<M(==)>(): State<M> {
    State(map[], 0, 0, None, 0)
  }

  // -- Acknowledgements -------------------------------------------------

  function Acks<M(==)>(s: State<M>, names: seq<M>): State<M>
    decreases names
  {
    if names == [] then s else Acks(s.Acked(names[0]), names[1..])
  }

  /** `high` is the old played count raised to every outstanding mark that `names` mentions. */
  ghost predicate HighWater<M>(s: State<M>, names: seq<M>, high: int) {
    && s.played <= high
    && (forall n | n in names && n in s.marks :: s.marks[n] <= high)
    && (high == s.played || exists n | n in names && n in s.marks :: high == s.marks[n])
  }

  /**
   Any acknowledgements, in any order, with repeats and unknown names: the played
   count becomes the high water of the named marks and exactly the marks above it
   stay outstanding.
   */
  lemma {:induction false} AckConfluence<M>(s: State<M>, names: seq<M>)
    requires s.Consistent()
    ensures var r := Acks(s, names);
            && r.Consistent()
            && HighWater(s, names, r.played)
            && r == s.(played := r.played).Pruned()
    decreases names
  {
    if names == [] {
      assert s.Pruned() == s;
    } else {
      var head, rest, s' := names[0], names[1..], s.Acked(names[0]);
      AckConfluence(s', rest);
      var r := Acks(s', rest);
      assert r == Acks(s, names);
      assert forall n :: n in names <==> n == head || n in rest;
      assert r.marks == s.(played := r.played).Pruned().marks;
      forall n | n in names && n in s.marks ensures s.marks[n] <= r.played {
        assert n in s'.marks || s.marks[n] <= s'.played;
      }
    }
  }

  /** Reordering or repeating acknowledgements changes nothing. */
  lemma AckOrderIrrelevant<M>(s: State<M>, xs: seq<M>, ys: seq<M>)
    requires s.Consistent()
    requires forall n :: n in xs <==> n in ys
    ensures Acks(s, xs) == Acks(s, ys)
  {
    AckConfluence(s, xs);
    AckConfluence(s, ys);
  }

  // -- Whole runs of the ledger -----------------------------------------

  datatype Chunk<M> = Chunk(mark: M, bytes: int)

  datatype Op<M> = Sent(mark: M, bytes: int) | Ack(mark: M) | Start(id: string) | Clear(next: Option<string>)

  /** A ledger together with what was sent since its last reset, and the baseline of that reset. */
  datatype Tracked<M(==)> = Tracked(ledger: State<M>, base: int, sent: seq<Chunk<M>>)

  function Apply<M(==)>(t: Tracked<M>, op: Op<M>): Tracked<M> {
    match op
    case Sent(m, n) => t.(ledger := t.ledger.ChunkSent(m, n), sent := t.sent + [Chunk(m, n)])
    case Ack(m) => t.(ledger := t.ledger.Acked(m))
    case Start(id) => t.(ledger := t.ledger.ItemStarted(id))
    case Clear(next) => Tracked(t.ledger.Reset(next), t.ledger.played, [])
  }

  function Replay<M(==)>(ops: seq<Op<M>>): Tracked<M> {
    if ops == [] then Tracked(Initial(), 0, [])
    else Apply(Replay(ops[..|ops| - 1]), ops[|ops| - 1])
  }

  function Total<M(==)>(sent: seq<Chunk<M>>): int {
    if sent == [] then 0 else Total(sent[..|sent| - 1]) + sent[|sent| - 1].bytes
  }

  /** Marks are never reused and every chunk holds audio. */
  ghost predicate FreshAndPositive<M>(ops: seq<Op<M>>) {
    && (forall i | 0 <= i < |ops| && ops[i].Sent? :: ops[i].bytes > 0)
    && (forall i, j | 0 <= i < j < |ops| && ops[i].Sent? && ops[j].Sent? :: ops[i].mark != ops[j].mark)
  }

  ghost predicate CumulativeTotals<M>(t: Tracked<M>) {
    && t.ledger.queued == t.base + Total(t.sent)
    && (forall m | m in t.ledger.marks :: exists i :: 0 <= i < |t.sent| && t.sent[i].mark == m)
    && (forall i | 0 <= i < |t.sent| && t.sent[i].mark in t.ledger.marks ::
          t.ledger.marks[t.sent[i].mark] == t.base + Total(t.sent[..i + 1]))
  }

  ghost predicate SentIn<M>(ops: seq<Op<M>>, mark: M) {
    exists j :: 0 <= j < |ops| && ops[j].Sent? && ops[j].mark == mark
  }

  lemma ChunkKeepsTotals<M>(t: Tracked<M>, m: M, n: int)
    requires CumulativeTotals(t)
    requires forall i | 0 <= i < |t.sent| :: t.sent[i].mark != m
    ensures CumulativeTotals(Apply(t, Sent(m, n)))
  {
    var t' := Apply(t, Sent(m, n));
    assert t'.sent[..|t.sent|] == t.sent;
    assert t'.sent[..|t'.sent|] == t'.sent;
    forall i | 0 <= i < |t.sent| ensures t'.sent[i] == t.sent[i] && t'.sent[..i + 1] == t.sent[..i + 1] {
    }
    forall x | x in t'.ledger.marks ensures exists i :: 0 <= i < |t'.sent| && t'.sent[i].mark == x {
      if x == m {
        assert t'.sent[|t.sent|].mark == x;
      } else {
        var i :| 0 <= i < |t.sent| && t.sent[i].mark == x;
        assert t'.sent[i].mark == x;
      }
    }
  }

  lemma OtherStepsKeepTotals<M>(t: Tracked<M>, op: Op<M>)
    requires CumulativeTotals(t) && !op.Sent?
    ensures CumulativeTotals(Apply(t, op))
  {
    var t' := Apply(t, op);
    if !op.Clear? {
      assert t'.sent == t.sent;
      assert forall m | m in t'.ledger.marks :: m in t.ledger.marks && t'.ledger.marks[m] == t.ledger.marks[m];
    }
  }

  lemma StepsKeepConsistency<M>(t: Tracked<M>, op: Op<M>)
    requires t.ledger.Consistent() && (op.Sent? ==> op.bytes > 0)
    ensures Apply(t, op).ledger.Consistent()
  {
  }

  lemma LogGrows<M>(t: Tracked<M>, before: seq<Op<M>>, op: Op<M>)
    requires forall i | 0 <= i < |t.sent| :: SentIn(before, t.sent[i].mark)
    ensures forall i | 0 <= i < |Apply(t, op).sent| :: SentIn(before + [op], Apply(t, op).sent[i].mark)
  {
    var ops, sent := before + [op], Apply(t, op).sent;
    forall i | 0 <= i < |sent| ensures SentIn(ops, sent[i].mark) {
      if i < |t.sent| {
        assert SentIn(before, t.sent[i].mark);
        var j :| 0 <= j < |before| && before[j].Sent? && before[j].mark == t.sent[i].mark;
        assert ops[j].Sent? && ops[j].mark == sent[i].mark;
      } else {
        assert ops[|before|].Sent? && ops[|before|].mark == sent[i].mark;
      }
    }
  }

  /**
   Over every run: the watermarks stay ordered, and each outstanding mark holds the
   last reset's baseline plus the sizes of the chunks sent since, up to that mark.
   */
  lemma {:induction false} LedgerRun<M>(ops: seq<Op<M>>)
    requires FreshAndPositive(ops)
    ensures Replay(ops).ledger.Consistent()
    ensures CumulativeTotals(Replay(ops))
    ensures forall i | 0 <= i < |Replay(ops).sent| :: SentIn(ops, Replay(ops).sent[i].mark)
    decreases |ops|
  {
    if ops != [] {
      var k := |ops| - 1;
      var before, op := ops[..k], ops[k];
      assert ops == before + [op];
      LedgerRun(before);
      var t := Replay(before);
      assert FreshAndPositive(before);
      assert Replay(ops) == Apply(t, op);
      LogGrows(t, before, op);
      StepsKeepConsistency(t, op);
      if !op.Sent? {
        OtherStepsKeepTotals(t, op);
      } else {
        forall i | 0 <= i < |t.sent| ensures t.sent[i].mark != op.mark {
          var j :| 0 <= j < |before| && before[j].Sent? && before[j].mark == t.sent[i].mark;
          assert ops[j] == before[j];
        }
        ChunkKeepsTotals(t, op.mark, op.bytes);
      }
    }
  }

  // -- The object -------------------------------------------------------

  class PlaybackLedger<M(==)> {
    var marks: map<M, int>
    var playedBytes: int
    var queuedBytes: int
    var currentItemId: Option<string>
    var itemStartOffset: int

    ghost function View(): State<M>
      reads this
    {
      State(marks, playedBytes, queuedBytes, currentItemId, itemStartOffset)
    }

    constructor ()
      ensures View() == Initial()
    {
      marks, playedBytes, queuedBytes := map[], 0, 0;
      currentItemId, itemStartOffset := None, 0;
    }

    method OnChunkSent(markName: M, payloadBytes: int)
      modifies this
      ensures View() == old(View()).ChunkSent(markName, payloadBytes)
    {
      queuedBytes := queuedBytes + payloadBytes;
      marks := marks[markName := queuedBytes];
    }

    method OnMarkAck(markName: M) returns (counted: bool)
      modifies this
      ensures View() == old(View()).Acked(markName)
      ensures counted <==> markName in old(marks)
    {
      if markName !in marks {
        return false;
      }
      var cumulative := marks[markName];
      marks := marks - {markName};
      playedBytes := Max(playedBytes, cumulative);
      Prune();
      return true;
    }

    method Prune()
      modifies this`marks
      ensures View() == old(View()).Pruned()
    {
      var passed := set n | n in marks && marks[n] <= playedBytes;
      while passed != {}
        invariant forall n | n in passed :: n in marks && marks[n] <= playedBytes
        invariant forall n | n in old(marks) && n !in passed && old(marks)[n] <= playedBytes :: n !in marks
        invariant forall n | n in old(marks) && old(marks)[n] > playedBytes :: n in marks
        invariant forall n | n in marks :: n in old(marks) && marks[n] == old(marks)[n]
        decreases |passed|
      {
        var name :| name in passed;
        marks := marks - {name};
        passed := passed - {name};
      }
      assert marks == old(View()).Pruned().marks;
    }

    method OnItemStarted(itemId: string)
      modifies this
      ensures View() == old(View()).ItemStarted(itemId)
    {
      currentItemId := Some(itemId);
      itemStartOffset := queuedBytes;
    }

    method BeginNewItem(itemId: Option<string>)
      modifies this
      ensures View() == old(View()).Reset(itemId)
    {
      marks := map[];
      queuedBytes := playedBytes;
      itemStartOffset := playedBytes;
      currentItemId := itemId;
    }
  }
}
