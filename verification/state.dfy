/** The per-task state word: a four-flag set held in an atomic word.
    Every mutation is a single fetch-or or fetch-and that reports the word it
    replaced; here each such read-modify-write is one indivisible step, a pure
    function from the old word to a `Step` holding the new word and the
    operation's answer. */
module TaskState {

  /** The `AtomicU32` behind `State`, cut to its low four bits: the word
      starts as `SPAWNED` and every operation ors or ands it with a mask of
      those bits, so the upper 28 bits are zero in every state that exists. */
  type Word = bv4

  /** The task is on the heap (bit 0). */
  const SPAWNED: Word := 1
  /** The task is in its executor's ready queue (bit 1). */
  const READY_QUEUED: Word := 2
  /** The task is in a wait queue (bit 2). */
  const WAIT_QUEUED: Word := 4
  /** The task is in the timer queue (bit 3). */
  const TIMER_QUEUED: Word := 8

  /** What one atomic read-modify-write leaves behind (`next`) and the word
      it replaced (`prior`). */
  datatype Rmw = Rmw(next: Word, prior: Word)

  /** What a state operation leaves behind and the answer it reports. */
  datatype Step = Step(next: Word, result: bool)

  predicate Has(s: Word, flag: Word) {
    s & flag != 0
  }

  /** The bits of `s` that lie outside `flag`. */
  function Outside(s: Word, flag: Word): Word {
    s & !flag
  }

  // ---------------------------------------------------------------------
  // Reference view: the four flags as booleans
  // ---------------------------------------------------------------------

  datatype Flags = Flags(spawned: bool, ready: bool, wait: bool, timer: bool)

  function Decode(s: Word): Flags {
    Flags(Has(s, SPAWNED), Has(s, READY_QUEUED), Has(s, WAIT_QUEUED), Has(s, TIMER_QUEUED))
  }

  function Encode(f: Flags): Word {
    (if f.spawned then SPAWNED else 0)
    | (if f.ready then READY_QUEUED else 0)
    | (if f.wait then WAIT_QUEUED else 0)
    | (if f.timer then TIMER_QUEUED else 0)
  }

  lemma DecodeEncode(f: Flags)
    ensures Decode(Encode(f)) == f
  {
  }

  lemma EncodeDecode(s: Word)
    ensures Encode(Decode(s)) == s
  {
  }

  // ---------------------------------------------------------------------
  // The atomic primitives
  // ---------------------------------------------------------------------

  /** `fetch_or(mask)`: sets the mask bits and reports the previous word. */
  function FetchOr(s: Word, mask: Word): Rmw {
    Rmw(s | mask, s)
  }

  /** `fetch_and(!flag)`: clears the flag bits and reports the previous word. */
  function FetchAndNot(s: Word, flag: Word): Rmw {
    Rmw(s & !flag, s)
  }

  // ---------------------------------------------------------------------
  // State operations
  // ---------------------------------------------------------------------

  /** `State::new`: a freshly spawned task, in no queue. */
  function New(): (s: Word)
    ensures Decode(s) == Flags(true, false, false, false)
  {
    SPAWNED
  }

  /** Sets ReadyQueued; the answer is true exactly when this call set it.
      No Spawned check is made, whatever the flag holds. */
  function ReadyEnqueue(s: Word): (r: Step)
    ensures r.result <==> !Has(s, READY_QUEUED)
    ensures Has(r.next, READY_QUEUED)
    ensures Outside(r.next, READY_QUEUED) == Outside(s, READY_QUEUED)
  {
    var prior := FetchOr(s, READY_QUEUED);
    Step(prior.next, prior.prior & READY_QUEUED == 0)
  }

  /** Clears ReadyQueued; the answer is whether Spawned was set before. */
  function ReadyDequeue(s: Word): (r: Step)
    ensures r.result <==> Has(s, SPAWNED)
    ensures !Has(r.next, READY_QUEUED)
    ensures Outside(r.next, READY_QUEUED) == Outside(s, READY_QUEUED)
  {
    var prior := FetchAndNot(s, READY_QUEUED);
    Step(prior.next, prior.prior & SPAWNED != 0)
  }

  /** Sets TimerQueued; the answer is true exactly when this call set it. */
  function TimerEnqueue(s: Word): (r: Step)
    ensures r.result <==> !Has(s, TIMER_QUEUED)
    ensures Has(r.next, TIMER_QUEUED)
    ensures Outside(r.next, TIMER_QUEUED) == Outside(s, TIMER_QUEUED)
  {
    var prior := FetchOr(s, TIMER_QUEUED);
    Step(prior.next, prior.prior & TIMER_QUEUED == 0)
  }

  /** Clears TimerQueued and reports nothing. */
  function TimerDequeue(s: Word): (r: Word)
    ensures !Has(r, TIMER_QUEUED)
    ensures Outside(r, TIMER_QUEUED) == Outside(s, TIMER_QUEUED)
  {
    FetchAndNot(s, TIMER_QUEUED).next
  }

  /** Sets WaitQueued; the answer is true exactly when this call set it. */
  function WaitEnqueue(s: Word): (r: Step)
    ensures r.result <==> !Has(s, WAIT_QUEUED)
    ensures Has(r.next, WAIT_QUEUED)
    ensures Outside(r.next, WAIT_QUEUED) == Outside(s, WAIT_QUEUED)
  {
    var prior := FetchOr(s, WAIT_QUEUED);
    Step(prior.next, prior.prior & WAIT_QUEUED == 0)
  }

  /** Clears WaitQueued and reports nothing. */
  function WaitDequeue(s: Word): (r: Word)
    ensures !Has(r, WAIT_QUEUED)
    ensures Outside(r, WAIT_QUEUED) == Outside(s, WAIT_QUEUED)
  {
    FetchAndNot(s, WAIT_QUEUED).next
  }

  /** The name `Display` prints: the first queue flag set, in the order
      ReadyQueued, WaitQueued, TimerQueued; otherwise "Spawned", whether or
      not the Spawned flag is set. */
  function Name(s: Word): (r: string)
    ensures r in {"ReadyQueued", "WaitQueued", "TimerQueued", "Spawned"}
    ensures r == "ReadyQueued" <==> Decode(s).ready
    ensures r == "WaitQueued" <==> !Decode(s).ready && Decode(s).wait
    ensures r == "TimerQueued" <==> !Decode(s).ready && !Decode(s).wait && Decode(s).timer
    ensures r == "Spawned" <==> !Decode(s).ready && !Decode(s).wait && !Decode(s).timer
  {
    if s & READY_QUEUED != 0 then "ReadyQueued"
    else if s & WAIT_QUEUED != 0 then "WaitQueued"
    else if s & TIMER_QUEUED != 0 then "TimerQueued"
    else "Spawned"
  }

  // ---------------------------------------------------------------------
  // Each operation against the flag view
  // ---------------------------------------------------------------------

  /** Every operation moves exactly its own flag, in the flag view. */
  lemma OperationsMatchFlags(s: Word)
    ensures Decode(ReadyEnqueue(s).next) == Decode(s).(ready := true)
    ensures Decode(ReadyDequeue(s).next) == Decode(s).(ready := false)
    ensures Decode(WaitEnqueue(s).next) == Decode(s).(wait := true)
    ensures Decode(WaitDequeue(s)) == Decode(s).(wait := false)
    ensures Decode(TimerEnqueue(s).next) == Decode(s).(timer := true)
    ensures Decode(TimerDequeue(s)) == Decode(s).(timer := false)
  {
  }

  /** A second enqueue with nothing in between reports false and changes nothing. */
  lemma EnqueueIdempotent(s: Word)
    ensures !ReadyEnqueue(ReadyEnqueue(s).next).result
    ensures ReadyEnqueue(ReadyEnqueue(s).next).next == ReadyEnqueue(s).next
    ensures !WaitEnqueue(WaitEnqueue(s).next).result
    ensures WaitEnqueue(WaitEnqueue(s).next).next == WaitEnqueue(s).next
    ensures !TimerEnqueue(TimerEnqueue(s).next).result
    ensures TimerEnqueue(TimerEnqueue(s).next).next == TimerEnqueue(s).next
  {
  }

  /** An enqueue undone by its dequeue gives back the word it started from
      when the flag was clear. */
  lemma EnqueueDequeueRestores(s: Word)
    ensures !Has(s, READY_QUEUED) ==> ReadyDequeue(ReadyEnqueue(s).next).next == s
    ensures !Has(s, WAIT_QUEUED) ==> WaitDequeue(WaitEnqueue(s).next) == s
    ensures !Has(s, TIMER_QUEUED) ==> TimerDequeue(TimerEnqueue(s).next) == s
  {
  }

  /** The printed name never looks at the Spawned flag. */
  lemma NameIgnoresSpawned(s: Word)
    ensures Name(s) == Name(s ^ SPAWNED)
  {
  }

  // ---------------------------------------------------------------------
  // Reachable states
  // ---------------------------------------------------------------------

  datatype Op =
    | ReadyEnqueueOp
    | ReadyDequeueOp
    | WaitEnqueueOp
    | WaitDequeueOp
    | TimerEnqueueOp
    | TimerDequeueOp

  /** The word one operation leaves behind; its answer is dropped. */
  function Apply(s: Word, op: Op): (r: Word)
    ensures Has(s, SPAWNED) ==> Has(r, SPAWNED)
    ensures op != ReadyDequeueOp && Has(s, READY_QUEUED) ==> Has(r, READY_QUEUED)
  {
    match op
    case ReadyEnqueueOp => ReadyEnqueue(s).next
    case ReadyDequeueOp => ReadyDequeue(s).next
    case WaitEnqueueOp => WaitEnqueue(s).next
    case WaitDequeueOp => WaitDequeue(s)
    case TimerEnqueueOp => TimerEnqueue(s).next
    case TimerDequeueOp => TimerDequeue(s)
  }

  /** The word a sequence of operations leaves behind, applied in order. */
  function Run(s: Word, ops: seq<Op>): Word
    decreases |ops|
  {
    if |ops| == 0 then s else Run(Apply(s, ops[0]), ops[1..])
  }

  /** No operation clears Spawned. */
  lemma {:induction false} RunKeepsSpawned(s: Word, ops: seq<Op>)
    requires Has(s, SPAWNED)
    ensures Has(Run(s, ops), SPAWNED)
    decreases |ops|
  {
    if |ops| > 0 {
      RunKeepsSpawned(Apply(s, ops[0]), ops[1..]);
    }
  }

  /** In every state reachable from `New`, `ready_dequeue` reports true. */
  lemma ReachableDequeueReportsSpawned(ops: seq<Op>)
    ensures ReadyDequeue(Run(New(), ops)).result
  {
    RunKeepsSpawned(New(), ops);
  }

  /** Without a ready dequeue, ReadyQueued stays set. */
  lemma {:induction false} NoDequeueKeepsReady(s: Word, ops: seq<Op>)
    requires Has(s, READY_QUEUED)
    requires ReadyDequeueOp !in ops
    ensures Has(Run(s, ops), READY_QUEUED)
    decreases |ops|
  {
    if |ops| > 0 {
      assert ops[0] in ops;
      assert forall op :: op in ops[1..] ==> op in ops;
      NoDequeueKeepsReady(Apply(s, ops[0]), ops[1..]);
    }
  }

  /** Of two ready enqueues with no ready dequeue between them, whatever else
      happens between them, only the first can report true. */
  lemma SecondReadyEnqueueFails(s: Word, between: seq<Op>)
    requires ReadyDequeueOp !in between
    ensures !ReadyEnqueue(Run(ReadyEnqueue(s).next, between)).result
  {
    NoDequeueKeepsReady(ReadyEnqueue(s).next, between);
  }

  /** The enqueue the comment on `ready_enqueue` describes: it marks the
      task only if it is spawned and not yet ready-queued. The code makes no
      Spawned check; this version is the reference it is compared with. */
  function CheckedReadyEnqueue(s: Word): (r: Step)
    ensures r.result <==> Has(s, SPAWNED) && !Has(s, READY_QUEUED)
    ensures Has(s, SPAWNED) ==> Has(r.next, READY_QUEUED)
    ensures Has(s, SPAWNED) ==> Outside(r.next, READY_QUEUED) == Outside(s, READY_QUEUED)
    ensures !Has(s, SPAWNED) ==> r.next == s
  {
    if Has(s, SPAWNED) then ReadyEnqueue(s) else Step(s, false)
  }

  /** The missing Spawned check is never observable from `New`: in every
      reachable state the code behaves as its comment says. */
  lemma SpawnedCheckUnobservable(ops: seq<Op>)
    ensures ReadyEnqueue(Run(New(), ops)) == CheckedReadyEnqueue(Run(New(), ops))
  {
    RunKeepsSpawned(New(), ops);
  }

  /** It is observable exactly on the words with neither Spawned nor
      ReadyQueued: there the code sets ReadyQueued and reports a fresh
      enqueue where the comment would refuse. */
  lemma SpawnedCheckMissing(s: Word)
    requires !Has(s, SPAWNED)
    ensures ReadyEnqueue(s) != CheckedReadyEnqueue(s) <==> !Has(s, READY_QUEUED)
    ensures !Has(s, READY_QUEUED) ==> ReadyEnqueue(s).result && Has(ReadyEnqueue(s).next, READY_QUEUED)
  {
  }

  /** The walk of the state formatting test: each enqueue is shown by its own
      queue name and each matching dequeue returns to a plain spawned task. */
  method StateFmtWalk() returns (names: seq<string>, last: Word)
    ensures names == ["Spawned", "ReadyQueued", "Spawned", "WaitQueued",
                      "Spawned", "TimerQueued", "Spawned", "Spawned"]
    ensures last == New()
  {
    var s := New();
    names := [Name(s)];
    s := ReadyEnqueue(s).next;
    names := names + [Name(s)];
    s := ReadyDequeue(s).next;
    names := names + [Name(s)];
    s := WaitEnqueue(s).next;
    names := names + [Name(s)];
    s := WaitDequeue(s);
    names := names + [Name(s)];
    s := TimerEnqueue(s).next;
    names := names + [Name(s)];
    s := TimerDequeue(s);
    names := names + [Name(s)];
    names := names + [Name(s)];
    last := s;
  }
}
