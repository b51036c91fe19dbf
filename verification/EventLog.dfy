/** The buffered event logger: a buffer behind a lock, a flush timer, writes handed to a thread pool, and a
    final flush on close. One step runs from one suspension point to the next; the only suspension inside the
    lock is the wait for a write. */
module EventLog {

  type Line = nat

  const FLUSH_AT: nat := 100

  /** Who is inside the lock, waiting for a write. */
  datatype Holder = Free | ByLog | ByTimer | ByClose

  /** The flush task: none, created but not yet run, asleep, at the lock, writing, or ended by a cancellation
      (the field then still refers to it). */
  datatype Task = NoTask | Created | Sleeping | AtLock | Writing | Ended

  /** A write handed to the thread pool: not picked up, running, or done with the waiting coroutine still to resume. */
  datatype Write = Idle | Queued | Running | Written

  datatype Closing = Open | Closing | Closed

  datatype Log = Log(
    accepted: seq<Line>,
    buffer: seq<Line>,
    batch: seq<Line>,
    file: seq<Line>,
    holder: Holder,
    task: Task,
    write: Write,
    closing: Closing,
    orphans: seq<seq<Line>>,
    dropped: seq<Line>
  )

  const EMPTY_LOG: Log := Log([], [], [], [], Free, NoTask, Idle, Open, [], [])

  datatype Step =
    | Append(line: Line)
    | TimerRuns
    | ThreadStarts
    | ThreadWrites
    | WriterResumes
    | Close
    | CloseFlushes
    | CancelLog
    | OrphanLands(i: nat)

  /** Take everything buffered and hand it to the thread pool. */
  function Flush(s: Log, who: Holder): Log {
    s.(holder := who, batch := s.buffer, buffer := [], write := Queued)
  }

  function DoAppend(s: Log, line: Line): Log {
    if s.holder != Free then s else
    var s1 := s.(accepted := s.accepted + [line], buffer := s.buffer + [line]);
    if FLUSH_AT <= |s1.buffer| then Flush(s1, ByLog)
    else if s.task == NoTask && s.closing == Open then s1.(task := Created)
    else s1
  }

  function DoTimer(s: Log): Log {
    match s.task
    case Created => s.(task := Sleeping)
    case Sleeping => s.(task := AtLock)
    case AtLock =>
      if s.holder != Free then s
      else if s.buffer == [] then s.(task := NoTask)
      else Flush(s, ByTimer).(task := Writing)
    case _ => s
  }

  /** The coroutine that waits for the write is cancelled: the lock is released, a write that was not picked up
      never happens, and one that runs is no longer waited for. */
  function Abandon(s: Log): Log {
    var s1 := s.(holder := Free, write := Idle, batch := []);
    match s.write
    case Queued => s1.(dropped := s.dropped + s.batch)
    case Running => s1.(orphans := s.orphans + [s.batch])
    case _ => s1
  }

  function DoClose(s: Log): Log {
    if s.closing != Open then s else
    var s1 := s.(closing := Closing);
    match s.task
    case NoTask => s1
    case Sleeping => s1.(task := AtLock)
    case Writing => Abandon(s1).(task := Ended)
    case _ => s1.(task := Ended)
  }

  /** Close has seen the flush task end, and takes the lock for its own flush. */
  function DoCloseFlush(s: Log): Log {
    if s.closing != Closing || s.holder != Free || (s.task != NoTask && s.task != Ended) then s
    else if s.buffer == [] then s.(closing := Closed)
    else Flush(s, ByClose)
  }

  function DoResume(s: Log): Log {
    if s.write != Written then s else
    var s1 := s.(holder := Free, write := Idle);
    match s.holder
    case ByTimer => s1.(task := NoTask)
    case ByClose => s1.(closing := Closed)
    case _ => s1
  }

  function Next(s: Log, step: Step): Log {
    match step
    case Append(line) => DoAppend(s, line)
    case TimerRuns => DoTimer(s)
    case ThreadStarts => if s.write == Queued then s.(write := Running) else s
    case ThreadWrites =>
      if s.write == Running then s.(file := s.file + s.batch, batch := [], write := Written) else s
    case WriterResumes => DoResume(s)
    case Close => DoClose(s)
    case CloseFlushes => DoCloseFlush(s)
    case CancelLog => if s.holder == ByLog then Abandon(s) else s
    case OrphanLands(i) =>
      if i < |s.orphans| then s.(file := s.file + s.orphans[i], orphans := s.orphans[..i] + s.orphans[i+1..]) else s
  }

  function Run(s: Log, steps: seq<Step>): Log
    decreases |steps|
  {
    if steps == [] then s else Run(Next(s, steps[0]), steps[1..])
  }

  // ---- the shape of reachable states ----

  predicate Batched(s: Log) { s.write == Queued || s.write == Running }

  /** The lock is held exactly while a write is waited for, nothing is buffered meanwhile, and a non-empty
      buffer behind a free lock has a flush task pending unless the logger is closing. */
  ghost predicate Shaped(s: Log) {
    && (s.holder == Free <==> s.write == Idle)
    && (s.holder != Free ==> s.buffer == [])
    && (Batched(s) <==> s.batch != [])
    && (s.task == Writing <==> s.holder == ByTimer)
    && (s.holder == ByClose ==> s.closing == Closing && (s.task == NoTask || s.task == Ended))
    && (s.task == Ended ==> s.closing != Open)
    && (s.closing == Closed ==> s.task == NoTask || s.task == Ended)
    && |s.buffer| < FLUSH_AT
    && |s.batch| <= FLUSH_AT
    && (s.buffer != [] && s.closing == Open ==> s.task == Created || s.task == Sleeping || s.task == AtLock)
  }

  lemma StepShaped(s: Log, step: Step)
    requires Shaped(s)
    ensures Shaped(Next(s, step))
  {
  }

  // ---- order: what is accepted reaches the file in order ----

  /** File, batch and buffer, in this order, are exactly the accepted lines. */
  ghost predicate InOrder(s: Log) {
    s.file + s.batch + s.buffer == s.accepted && s.orphans == [] && s.dropped == []
  }

  /** A line that is given to the logger while nobody holds the lock is accepted at once, behind everything buffered;
      the hundredth goes to the thread pool together with all before it. While somebody holds the lock it waits. */
  lemma AppendDoes(s: Log, line: Line)
    requires Shaped(s)
    ensures var r := Next(s, Append(line));
            && (s.holder != Free ==> r == s)
            && (s.holder == Free ==>
                  && r.accepted == s.accepted + [line] && r.file == s.file
                  && r.batch + r.buffer == s.buffer + [line]
                  && (if |s.buffer| + 1 < 100 then r.batch == [] else r.buffer == [] && r.write == Queued)
                  && (s.closing == Open && r.buffer != [] ==> r.task == Created || r.task == s.task != NoTask))
  {
    assert [] + (s.buffer + [line]) == s.buffer + [line] && (s.buffer + [line]) + [] == s.buffer + [line];
  }

  /** The step cancels a coroutine whose write has not happened yet. */
  predicate Strands(s: Log, step: Step) {
    && Batched(s)
    && ((step.Close? && s.closing == Open && s.holder == ByTimer) || (step.CancelLog? && s.holder == ByLog))
  }

  lemma AppendInOrder(s: Log, line: Line)
    requires Shaped(s) && InOrder(s)
    ensures InOrder(DoAppend(s, line))
  {
    if s.holder == Free {
      assert s.batch == [] && s.file + [] == s.file;
      assert s.file + (s.buffer + [line]) == s.file + s.buffer + [line];
      assert s.file + (s.buffer + [line]) + [] == s.file + (s.buffer + [line]);
    }
  }

  lemma FlushInOrder(s: Log, who: Holder)
    requires InOrder(s) && s.batch == []
    ensures InOrder(Flush(s, who))
  {
    assert s.file + [] + s.buffer == s.file + s.buffer + [];
  }

  /** The exact condition: a step keeps every line, once and in order, if and only if it does not cancel a
      coroutine whose write has not happened yet. */
  lemma InOrderIff(s: Log, step: Step)
    requires Shaped(s) && InOrder(s)
    ensures InOrder(Next(s, step)) <==> !Strands(s, step)
  {
    if Strands(s, step) {
      var r := Next(s, step);
      assert r.dropped == s.batch || r.orphans == [s.batch];
    } else {
      match step
      case Append(line) => AppendInOrder(s, line);
      case TimerRuns => FlushInOrderIfFree(s, ByTimer);
      case CloseFlushes => FlushInOrderIfFree(s, ByClose);
      case ThreadWrites => assert s.file + s.batch + [] == s.file + s.batch;
      case _ =>
    }
  }

  lemma FlushInOrderIfFree(s: Log, who: Holder)
    requires Shaped(s) && InOrder(s)
    ensures s.holder == Free ==> InOrder(Flush(s, who))
  {
    if s.holder == Free {
      FlushInOrder(s, who);
    }
  }

  ghost predicate Calm(s: Log, steps: seq<Step>)
    decreases |steps|
  {
    steps == [] || (!Strands(s, steps[0]) && Calm(Next(s, steps[0]), steps[1..]))
  }

  /** Over every run that strands no write, nothing is lost, repeated or reordered. */
  lemma {:induction false} RunInOrder(s: Log, steps: seq<Step>)
    requires Shaped(s) && InOrder(s) && Calm(s, steps)
    ensures Shaped(Run(s, steps)) && InOrder(Run(s, steps))
    decreases |steps|
  {
    if steps != [] {
      StepShaped(s, steps[0]);
      InOrderIff(s, steps[0]);
      RunInOrder(Next(s, steps[0]), steps[1..]);
    }
  }

  /** When close returns, the file holds every accepted line, in order. */
  lemma CloseLeavesNothing(steps: seq<Step>, last: Step)
    requires Calm(EMPTY_LOG, steps + [last])
    requires Run(EMPTY_LOG, steps).closing != Closed && Run(EMPTY_LOG, steps + [last]).closing == Closed
    ensures var s := Run(EMPTY_LOG, steps + [last]); s.file == s.accepted
  {
    RunAppend(EMPTY_LOG, steps, last);
    RunInOrder(EMPTY_LOG, steps);
    RunInOrder(EMPTY_LOG, steps + [last]);
    var s, r := Run(EMPTY_LOG, steps), Run(EMPTY_LOG, steps + [last]);
    assert r == Next(s, last);
    assert r.buffer == [] && r.batch == [];
    assert r.file + [] + [] == r.file;
  }

  lemma {:induction false} RunAppend(s: Log, steps: seq<Step>, last: Step)
    requires Calm(s, steps + [last])
    ensures Run(s, steps + [last]) == Next(Run(s, steps), last) && Calm(s, steps)
    decreases |steps|
  {
    if steps == [] {
      assert steps + [last] == [last];
      assert Run(Next(s, last), []) == Next(s, last);
    } else {
      assert (steps + [last])[1..] == steps[1..] + [last] && (steps + [last])[0] == steps[0];
      RunAppend(Next(s, steps[0]), steps[1..], last);
    }
  }

  /** A step of a pending task: the flush task, the thread pool, or whoever waits for a write. */
  predicate OfTask(step: Step) { step.TimerRuns? || step.ThreadStarts? || step.ThreadWrites? || step.WriterResumes? }

  /** How many steps the pending tasks can still take. */
  function Work(s: Log): nat {
    (match s.task case Created => 6 case Sleeping => 5 case AtLock => 4 case _ => 0)
    + (match s.write case Queued => 3 case Running => 2 case Written => 1 case Idle => 0)
  }

  /** A task step that changes anything uses up some of it. */
  lemma TaskWorks(s: Log, step: Step)
    requires Shaped(s) && OfTask(step) && Next(s, step) != s
    ensures Work(Next(s, step)) < Work(s)
  {
  }

  /** Every step of a schedule is a task's, and does something. */
  ghost predicate Schedule(s: Log, steps: seq<Step>)
    decreases |steps|
  {
    steps == [] || (OfTask(steps[0]) && Next(s, steps[0]) != s && Schedule(Next(s, steps[0]), steps[1..]))
  }

  predicate Quiet(s: Log) {
    && Next(s, TimerRuns) == s && Next(s, ThreadStarts) == s && Next(s, ThreadWrites) == s && Next(s, WriterResumes) == s
  }

  lemma {:induction false} SchedulesEnd(s: Log, steps: seq<Step>)
    requires Shaped(s) && InOrder(s) && Schedule(s, steps)
    ensures Shaped(Run(s, steps)) && InOrder(Run(s, steps)) && |steps| + Work(Run(s, steps)) <= Work(s)
    ensures Run(s, steps).accepted == s.accepted && (s.closing == Open ==> Run(s, steps).closing == Open)
    decreases |steps|
  {
    if steps != [] {
      StepShaped(s, steps[0]);
      InOrderIff(s, steps[0]);
      TaskWorks(s, steps[0]);
      OpenStaysOpen(s, steps[0]);
      SchedulesEnd(Next(s, steps[0]), steps[1..]);
    }
  }

  lemma OpenStaysOpen(s: Log, step: Step)
    requires Shaped(s) && OfTask(step)
    ensures Next(s, step).accepted == s.accepted && (s.closing == Open ==> Next(s, step).closing == Open)
  {
  }

  /** While the logger is open, every schedule of the pending tasks is at most nine steps long, and where it can go
      no further the file holds every accepted line, in order. */
  lemma PendingDrains(s: Log, steps: seq<Step>)
    requires Shaped(s) && InOrder(s) && s.closing == Open && Schedule(s, steps)
    ensures |steps| <= 9
    ensures Quiet(Run(s, steps)) ==> Run(s, steps).file == s.accepted
  {
    SchedulesEnd(s, steps);
    var r := Run(s, steps);
    if Quiet(r) {
      assert r.buffer == [] && r.batch == [];
      assert r.file + [] + [] == r.file;
    }
  }

  /** So a line given to an open logger with a free lock is in the file, last, once the pending tasks have run, in
      whatever order they do. */
  lemma AppendedIsWritten(s: Log, line: Line, steps: seq<Step>)
    requires Shaped(s) && InOrder(s) && s.closing == Open && s.holder == Free
    requires Schedule(Next(s, Append(line)), steps) && Quiet(Run(Next(s, Append(line)), steps))
    ensures Run(Next(s, Append(line)), steps).file == s.accepted + [line]
  {
    AppendDoes(s, line);
    StepShaped(s, Append(line));
    InOrderIff(s, Append(line));
    PendingDrains(Next(s, Append(line)), steps);
  }

  lemma {:induction false} RunConcat(s: Log, a: seq<Step>, b: seq<Step>)
    ensures Run(s, a + b) == Run(Run(s, a), b)
    decreases |a|
  {
    if a == [] {
      assert a + b == b;
    } else {
      assert (a + b)[1..] == a[1..] + b && (a + b)[0] == a[0];
      RunConcat(Next(s, a[0]), a[1..], b);
    }
  }

  /** A closing logger cannot get stuck: until it is closed, some pending task or the close itself can go on. */
  lemma CloseGoesOn(s: Log)
    requires Shaped(s) && s.closing == Closing
    ensures !Quiet(s) || Next(s, CloseFlushes) != s
  {
  }

  // ---- conservation, whatever is cancelled ----

  /** How often `x` occurs in the chunks. */
  function Occurrences(chunks: seq<seq<Line>>, x: Line): nat {
    if chunks == [] then 0 else Occurrences(chunks[..|chunks|-1], x) + multiset(chunks[|chunks|-1])[x]
  }

  lemma {:induction false} RemoveOccurrences(chunks: seq<seq<Line>>, i: nat, x: Line)
    requires i < |chunks|
    ensures Occurrences(chunks, x) == Occurrences(chunks[..i] + chunks[i+1..], x) + multiset(chunks[i])[x]
  {
    var most, r := chunks[..|chunks|-1], chunks[..i] + chunks[i+1..];
    if i == |chunks| - 1 {
      assert r == most;
    } else {
      assert r[..|r|-1] == most[..i] + most[i+1..];
      RemoveOccurrences(most, i, x);
    }
  }

  /** Every accepted line is in exactly one place, as often as it was accepted. */
  ghost predicate Conserved(s: Log, x: Line) {
    multiset(s.accepted)[x]
    == multiset(s.file)[x] + multiset(s.batch)[x] + multiset(s.buffer)[x] + Occurrences(s.orphans, x) + multiset(s.dropped)[x]
  }

  lemma AppendConserved(s: Log, line: Line, x: Line)
    requires Shaped(s) && Conserved(s, x)
    ensures Conserved(DoAppend(s, line), x)
  {
    if s.holder == Free {
      assert s.batch == [];
      assert multiset(s.buffer + [line])[x] == multiset(s.buffer)[x] + multiset([line])[x];
      assert multiset(s.accepted + [line])[x] == multiset(s.accepted)[x] + multiset([line])[x];
    }
  }

  lemma AbandonConserved(s: Log, x: Line)
    requires Shaped(s) && Conserved(s, x)
    ensures Conserved(Abandon(s), x)
  {
    assert (s.orphans + [s.batch])[..|s.orphans|] == s.orphans;
    assert multiset(s.dropped + s.batch)[x] == multiset(s.dropped)[x] + multiset(s.batch)[x];
  }

  lemma LandConserved(s: Log, i: nat, x: Line)
    requires Conserved(s, x) && i < |s.orphans|
    ensures Conserved(Next(s, OrphanLands(i)), x)
  {
    RemoveOccurrences(s.orphans, i, x);
    assert multiset(s.file + s.orphans[i])[x] == multiset(s.file)[x] + multiset(s.orphans[i])[x];
  }

  lemma WriteConserved(s: Log, x: Line)
    requires Conserved(s, x)
    ensures Conserved(Next(s, ThreadWrites), x)
  {
    assert multiset(s.file + s.batch)[x] == multiset(s.file)[x] + multiset(s.batch)[x];
  }

  lemma FlushConserved(s: Log, who: Holder, x: Line)
    requires Conserved(s, x) && s.batch == []
    ensures Conserved(Flush(s, who), x)
  {
  }

  lemma CloseConserved(s: Log, x: Line)
    requires Shaped(s) && Conserved(s, x)
    ensures Conserved(DoClose(s), x)
  {
    AbandonConserved(s, x);
    assert Abandon(s.(closing := Closing)) == Abandon(s).(closing := Closing);
  }

  lemma TimerConserved(s: Log, x: Line)
    requires Shaped(s) && Conserved(s, x)
    ensures Conserved(DoTimer(s), x)
  {
    if s.holder == Free {
      FlushConserved(s, ByTimer, x);
    }
  }

  lemma CloseFlushConserved(s: Log, x: Line)
    requires Shaped(s) && Conserved(s, x)
    ensures Conserved(DoCloseFlush(s), x)
  {
    if s.holder == Free {
      FlushConserved(s, ByClose, x);
    }
  }

  lemma StepConserved(s: Log, step: Step, x: Line)
    requires Shaped(s) && Conserved(s, x)
    ensures Conserved(Next(s, step), x)
  {
    match step
    case Append(line) => AppendConserved(s, line, x);
    case OrphanLands(i) => if i < |s.orphans| { LandConserved(s, i, x); }
    case ThreadWrites => WriteConserved(s, x);
    case Close => CloseConserved(s, x);
    case CancelLog => AbandonConserved(s, x);
    case TimerRuns => TimerConserved(s, x);
    case CloseFlushes => CloseFlushConserved(s, x);
    case _ =>
  }

  lemma {:induction false} RunConserved(s: Log, steps: seq<Step>, x: Line)
    requires Shaped(s) && Conserved(s, x)
    ensures Shaped(Run(s, steps)) && Conserved(Run(s, steps), x)
    decreases |steps|
  {
    if steps != [] {
      StepShaped(s, steps[0]);
      StepConserved(s, steps[0], x);
      RunConserved(Next(s, steps[0]), steps[1..], x);
    }
  }

  /** Over every run, whatever is cancelled and whenever: no line is written more often than it was accepted,
      and a line missing from the file is still held somewhere or was dropped by a cancellation. */
  lemma NeverRepeated(steps: seq<Step>, x: Line)
    ensures var s := Run(EMPTY_LOG, steps);
            && multiset(s.file)[x] <= multiset(s.accepted)[x]
            && (x in s.accepted && x !in s.file ==>
                  x in s.batch || x in s.buffer || 0 < Occurrences(s.orphans, x) || x in s.dropped)
  {
    assert Shaped(EMPTY_LOG) && Conserved(EMPTY_LOG, x);
    RunConserved(EMPTY_LOG, steps, x);
    var s := Run(EMPTY_LOG, steps);
    assert x in s.accepted ==> 0 < multiset(s.accepted)[x];
    assert x !in s.file ==> multiset(s.file)[x] == 0;
  }

  // ---- what a stranded write does ----

  /** Closing while the timer's write is still queued loses the line for good. */
  lemma CloseCanLose()
    ensures var s := Run(EMPTY_LOG, [Append(7), TimerRuns, TimerRuns, TimerRuns, Close, CloseFlushes]);
            s.closing == Closed && s.accepted == [7] && s.file == [] && s.batch == [] && s.buffer == [] && s.orphans == []
  {
    Unfold6(EMPTY_LOG, Append(7), TimerRuns, TimerRuns, TimerRuns, Close, CloseFlushes);
    OneLineQueued(7);
  }

  lemma OneLineQueued(line: Line)
    ensures Next(Next(Next(Next(EMPTY_LOG, Append(line)), TimerRuns), TimerRuns), TimerRuns)
         == Log([line], [], [line], [], ByTimer, Writing, Queued, Open, [], [])
  {
    assert [] + [line] == [line];
    assert DoAppend(EMPTY_LOG, line) == Log([line], [line], [], [], Free, Created, Idle, Open, [], []);
  }

  lemma Unfold6(s: Log, a: Step, b: Step, c: Step, d: Step, e: Step, f: Step)
    ensures Run(s, [a, b, c, d, e, f]) == Next(Next(Next(Next(Next(Next(s, a), b), c), d), e), f)
  {
    assert [a, b, c, d, e, f] == [a, b, c] + [d, e, f];
    RunConcat(s, [a, b, c], [d, e, f]);
    Unfold3(s, a, b, c);
    Unfold3(Run(s, [a, b, c]), d, e, f);
  }

  lemma Unfold3(s: Log, a: Step, b: Step, c: Step)
    ensures Run(s, [a, b, c]) == Next(Next(Next(s, a), b), c)
  {
    assert [a, b, c][1..] == [b, c] && [b, c][1..] == [c] && [c][1..] == [];
    assert Run(Next(Next(s, a), b), [c]) == Next(Next(Next(s, a), b), c);
  }

  /** A write that outlives the close is written behind lines accepted after it. */
  lemma CloseCanReorder()
    ensures var s := Run(Run(EMPTY_LOG, [Append(1), TimerRuns, TimerRuns, TimerRuns, ThreadStarts, Close]),
                         [Append(2), CloseFlushes, ThreadStarts, ThreadWrites, WriterResumes, OrphanLands(0)]);
            s.closing == Closed && s.accepted == [1, 2] && s.file == [2, 1]
  {
    OneLineStranded();
    OneLineOvertakes();
  }

  lemma OneLineOvertakes()
    ensures Run(Log([1], [], [], [], Free, Ended, Idle, Closing, [[1]], []),
                [Append(2), CloseFlushes, ThreadStarts, ThreadWrites, WriterResumes, OrphanLands(0)])
         == Log([1, 2], [], [], [2, 1], Free, Ended, Idle, Closed, [], [])
  {
    var s1 := Log([1], [], [], [], Free, Ended, Idle, Closing, [[1]], []);
    Unfold6(s1, Append(2), CloseFlushes, ThreadStarts, ThreadWrites, WriterResumes, OrphanLands(0));
    SecondLineFlushed();
    SecondLineWritten();
  }

  lemma SecondLineFlushed()
    ensures Next(Next(Log([1], [], [], [], Free, Ended, Idle, Closing, [[1]], []), Append(2)), CloseFlushes)
         == Log([1, 2], [], [2], [], ByClose, Ended, Queued, Closing, [[1]], [])
  {
    assert [1] + [2] == [1, 2];
  }

  lemma SecondLineWritten()
    ensures Next(Next(Next(Log([1, 2], [], [2], [], ByClose, Ended, Queued, Closing, [[1]], []),
                           ThreadStarts), ThreadWrites), WriterResumes)
         == Log([1, 2], [], [], [2], Free, Ended, Idle, Closed, [[1]], [])
  {
    assert [] + [2] == [2];
  }

  lemma OneLineStranded()
    ensures Run(EMPTY_LOG, [Append(1), TimerRuns, TimerRuns, TimerRuns, ThreadStarts, Close])
         == Log([1], [], [], [], Free, Ended, Idle, Closing, [[1]], [])
  {
    Unfold6(EMPTY_LOG, Append(1), TimerRuns, TimerRuns, TimerRuns, ThreadStarts, Close);
    OneLineQueued(1);
  }

  /** Closed, with nobody in the lock and no task left. */
  ghost predicate Shut(s: Log) { Shaped(s) && s.closing == Closed && s.holder == Free }

  lemma ShutStays(s: Log, step: Step)
    requires Shut(s) && !step.Append?
    ensures Shut(Next(s, step)) && Next(s, step).buffer == s.buffer
  {
    StepShaped(s, step);
  }

  lemma {:induction false} ShutRuns(s: Log, steps: seq<Step>)
    requires Shut(s) && forall i :: 0 <= i < |steps| ==> !steps[i].Append?
    ensures Shut(Run(s, steps)) && Run(s, steps).buffer == s.buffer
    decreases |steps|
  {
    if steps != [] {
      ShutStays(s, steps[0]);
      ShutRuns(Next(s, steps[0]), steps[1..]);
    }
  }

  /** Once closed, a line accepted later is stranded: whatever happens afterwards, short of the hundredth line, it
      stays in the buffer. */
  lemma LateLineStays(s: Log, line: Line, steps: seq<Step>)
    requires Shut(s) && |s.buffer| + 1 < FLUSH_AT
    requires forall i :: 0 <= i < |steps| ==> !steps[i].Append?
    ensures Run(Next(s, Append(line)), steps).buffer == s.buffer + [line]
  {
    StepShaped(s, Append(line));
    ShutRuns(Next(s, Append(line)), steps);
  }

  // ---- in place ----

  class EventLogger {
    var accepted: seq<Line>
    var buffer: seq<Line>
    var batch: seq<Line>
    var file: seq<Line>
    var holder: Holder
    var flushTask: Task
    var write: Write
    var closing: Closing
    var orphans: seq<seq<Line>>
    var dropped: seq<Line>

    ghost function Contents(): Log
      reads this
    {
      Log(accepted, buffer, batch, file, holder, flushTask, write, closing, orphans, dropped)
    }

    constructor ()
      ensures Contents() == EMPTY_LOG
    {
      accepted, buffer, batch, file, orphans, dropped := [], [], [], [], [], [];
      holder, flushTask, write, closing := Free, NoTask, Idle, Open;
    }

    /** Up to the wait for the write. */
    method FlushUnlocked(who: Holder)
      requires buffer != []
      modifies this
      ensures Contents() == Flush(old(Contents()), who)
    {
      holder := who;
      batch := buffer;
      buffer := [];
      write := Queued;
    }

    method Accept(line: Line)
      requires holder == Free
      modifies this
      ensures Contents() == DoAppend(old(Contents()), line)
    {
      accepted := accepted + [line];
      buffer := buffer + [line];
      if FLUSH_AT <= |buffer| {
        FlushUnlocked(ByLog);
      } else if flushTask == NoTask && closing == Open {
        flushTask := Created;
      }
    }

    /** The flush task runs up to its next suspension. */
    method FlushTimer()
      requires flushTask == AtLock ==> holder == Free
      modifies this
      ensures Contents() == DoTimer(old(Contents()))
    {
      if flushTask == Created {
        flushTask := Sleeping;
      } else if flushTask == Sleeping {
        flushTask := AtLock;
      } else if flushTask == AtLock {
        if buffer == [] {
          flushTask := NoTask;
        } else {
          FlushUnlocked(ByTimer);
          flushTask := Writing;
        }
      }
    }

    /** Whoever waits for the write is cancelled. */
    method Cancelled()
      modifies this
      ensures Contents() == Abandon(old(Contents()))
    {
      if write == Queued {
        dropped := dropped + batch;
      } else if write == Running {
        orphans := orphans + [batch];
      }
      batch := [];
      holder := Free;
      write := Idle;
    }

    /** Close, up to its wait for the cancelled flush task. */
    method StartClose()
      requires closing == Open
      modifies this
      ensures Contents() == DoClose(old(Contents()))
    {
      closing := Closing;
      if flushTask == Sleeping {
        flushTask := AtLock;
      } else if flushTask == Writing {
        Cancelled();
        flushTask := Ended;
      } else if flushTask != NoTask {
        flushTask := Ended;
      }
    }

    method FinishClose()
      requires closing == Closing && holder == Free && (flushTask == NoTask || flushTask == Ended)
      modifies this
      ensures Contents() == DoCloseFlush(old(Contents()))
    {
      if buffer == [] {
        closing := Closed;
      } else {
        FlushUnlocked(ByClose);
      }
    }

    method Resume()
      requires write == Written
      modifies this
      ensures Contents() == DoResume(old(Contents()))
    {
      if holder == ByTimer {
        flushTask := NoTask;
      } else if holder == ByClose {
        closing := Closed;
      }
      holder := Free;
      write := Idle;
    }
  }
}
