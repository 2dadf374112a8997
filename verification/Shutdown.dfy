/** The controller used from one thread at a time, as the user interface does: clean shutdown, and the
    controller object itself. */
module Shutdown {
  import opened Wrappers
  import opened Controller
  import opened Exclusion

  // ---- Clean shutdown ----------------------------------------------------------------------

  /** Calls come one after the other, as on the user interface thread; threads interleave freely. */
  predicate Serial(steps: seq<Step>) {
    forall i | 0 <= i < |steps| ::
      (steps[i].Begin? ==> steps[i].caller == 0) && (steps[i].Advance? ==> steps[i].caller == 0)
  }

  predicate AllGone(s: State) {
    forall r | r in s.threads :: s.threads[r].Gone?
  }

  /** Every thread except possibly `r` has finished. */
  ghost predicate OnlyLeft(s: State, r: nat) {
    r in s.threads && forall q | q in s.threads && q != r :: s.threads[q].Gone?
  }

  /** The only unfinished thread is the one whose handle is stored or held by the call in progress. */
  ghost predicate Tracking(s: State) {
    match PcOf(s, 0)
    case StartJoin(p) => s.shared.thread == None && OnlyLeft(s, p)
    case StartClaim => s.shared.thread == None && AllGone(s)
    case StartSpawn(r) => s.shared.thread == None && AllGone(s) && r !in s.threads
    case StartUndo(_) => s.shared.thread == None && AllGone(s)
    case StartTrack(r) => s.shared.thread == None && OnlyLeft(s, r)
    case WaitJoin(r) => s.shared.thread == None && OnlyLeft(s, r)
    case WaitReset => s.shared.thread == None && AllGone(s)
    case _ => if s.shared.thread.Some? then OnlyLeft(s, s.shared.thread.value) else AllGone(s)
  }

  /** A serving run's sender is stored, about to be used, or used; past stop it has been used. */
  ghost predicate Told(s: State) {
    && (forall r | r in s.threads :: r < s.next)
    && (forall r | r in s.threads && s.threads[r] == Live ::
          && s.shared.running
          && (s.shared.shutdown == Some(r) || SenderOf(PcOf(s, 0)) == Some(r) || r in s.told))
    && (PcOf(s, 0).WaitTake? || PcOf(s, 0).WaitJoin? ==>
          forall r | r in s.threads && s.threads[r] == Live :: r in s.told)
    && (PcOf(s, 0).StopSend? ==>
          forall r | r in s.threads && s.threads[r] == Live :: SenderOf(PcOf(s, 0)) == Some(r) || r in s.told)
    && (PcOf(s, 0).StartSpawn? ==>
          s.shared.running && s.shared.shutdown == Some(PcOf(s, 0).run) && PcOf(s, 0).run < s.next)
    && (PcOf(s, 0).StartJoin? ==> forall r | r in s.threads :: s.threads[r] != Live)
    && (forall r | r in s.threads && s.threads[r] == Ended :: s.shared.running)
  }

  lemma SerialProceedTracks(s: State, spawned: bool)
    requires Tracking(s) && Told(s)
    ensures Tracking(Proceed(s, 0, spawned))
  {
  }

  lemma SerialProceedTells(s: State, spawned: bool)
    requires Tracking(s) && Told(s)
    ensures Told(Proceed(s, 0, spawned))
  {
  }

  lemma ThreadTracks(s: State, run: nat, event: ThreadEvent)
    requires Tracking(s) && Told(s) && run in s.threads
    ensures Tracking(RunThread(s, run, event))
  {
    assert PcOf(RunThread(s, run, event), 0) == PcOf(s, 0);
  }

  lemma ThreadTells(s: State, run: nat, event: ThreadEvent)
    requires Tracking(s) && Told(s) && run in s.threads
    ensures Told(RunThread(s, run, event))
  {
    assert PcOf(RunThread(s, run, event), 0) == PcOf(s, 0);
  }

  lemma {:induction false} SerialRun(steps: seq<Step>)
    requires Serial(steps)
    ensures Tracking(Exec(steps)) && Told(Exec(steps))
  {
    if steps != [] {
      var s, step := Exec(steps[..|steps| - 1]), steps[|steps| - 1];
      assert forall i | 0 <= i < |steps| - 1 :: steps[i] == steps[..|steps| - 1][i];
      SerialRun(steps[..|steps| - 1]);
      hide Proceed, RunThread;
      match step
      case Begin(c, call) =>
      case Advance(c, spawned) =>
        SerialProceedTracks(s, spawned);
        SerialProceedTells(s, spawned);
      case Thread(run, event) =>
        if run in s.threads {
          ThreadTracks(s, run, event);
          ThreadTells(s, run, event);
        }
    }
  }

  /** When shutdown_and_wait returns, no runtime thread is alive, and flag, sender and handle are
      cleared. */
  lemma ShutdownIsClean(steps: seq<Step>, spawned: bool)
    requires Serial(steps) && PcOf(Exec(steps), 0) == WaitReset
    ensures var t := Apply(Exec(steps), Advance(0, spawned));
            PcOf(t, 0) == Idle && AllGone(t) && t.shared == Shared(false, None, None)
  {
    hide Exec;
    SerialRun(steps);
  }

  /** It never waits for a server that was not told to stop. */
  lemma ShutdownWaitsOnlyForToldServer(steps: seq<Step>, run: nat)
    requires Serial(steps) && PcOf(Exec(steps), 0) == WaitJoin(run)
    ensures var s := Exec(steps); run in s.threads && (s.threads[run] == Live ==> run in s.told)
  {
    hide Exec;
    SerialRun(steps);
  }

  lemma {:induction false} SerialCallersIdle(steps: seq<Step>, c: nat)
    requires Serial(steps) && c != 0
    ensures PcOf(Exec(steps), c) == Idle
  {
    if steps != [] {
      var s, step := Exec(steps[..|steps| - 1]), steps[|steps| - 1];
      assert forall i | 0 <= i < |steps| - 1 :: steps[i] == steps[..|steps| - 1][i];
      SerialCallersIdle(steps[..|steps| - 1], c);
      assert step.Advance? ==> step.caller == 0;
      assert PcOf(Apply(s, step), c) == PcOf(s, c);
    }
  }

  /** Calls in sequence are coordinated, so they keep at most one runtime. */
  lemma SerialIsCoordinated(steps: seq<Step>)
    requires Serial(steps)
    ensures Coordinated(steps) && OneRuntime(Exec(steps))
  {
    forall k, c: nat | 0 <= k <= |steps| && c != 0
      ensures PcOf(Exec(steps[..k]), c) == Idle
    {
      assert forall i | 0 <= i < k :: steps[i] == steps[..k][i];
      SerialCallersIdle(steps[..k], c);
    }
    CoordinatedCallsKeepOne(steps);
  }

  /** A thread that is joined is never stuck behind the caller that joins it: from every reachable
      state its own remaining steps, taken without anyone else, make it joinable. */
  lemma JoinedRunCanFinish(steps: seq<Step>, c: nat, run: nat)
    requires PcOf(Exec(steps), c) == WaitJoin(run) || PcOf(Exec(steps), c) == StartJoin(run)
    ensures var t := Exec(steps + [Thread(run, Finish)] + [Thread(run, Cleanup)] + [Thread(run, Exit)]);
            && Joinable(t, run) && t.callers == Exec(steps).callers
            && PcOf(Proceed(t, c, true), c) != PcOf(t, c)
  {
    hide Exec;
    ExecKnown(steps);
    assert CallerKnown(Exec(steps), c);
    ExecSnoc(steps, Thread(run, Finish));
    ExecSnoc(steps + [Thread(run, Finish)], Thread(run, Cleanup));
    ExecSnoc(steps + [Thread(run, Finish)] + [Thread(run, Cleanup)], Thread(run, Exit));
  }

  // ---- The running flag --------------------------------------------------------------------

  predicate NoPanic(steps: seq<Step>) {
    forall i | 0 <= i < |steps| :: steps[i].Thread? ==> steps[i].event != Panic
  }

  ghost predicate Serving(s: State) {
    exists r: nat :: BeforeCleanup(s, r)
  }

  /** The flag is up while a run is before its cleanup, and while one is being launched. */
  ghost predicate FlagTells(s: State) {
    if Launching(PcOf(s, 0)) then s.shared.running && !Serving(s) else s.shared.running <==> Serving(s)
  }

  lemma SerialProceedFlags(s: State, spawned: bool)
    requires Tracking(s) && FlagTells(s)
    ensures FlagTells(Proceed(s, 0, spawned))
  {
    var t := Proceed(s, 0, spawned);
    if PcOf(s, 0).StartSpawn? {
      assert spawned ==> BeforeCleanup(t, PcOf(s, 0).run);
    } else {
      assert forall r: nat :: BeforeCleanup(t, r) == BeforeCleanup(s, r);
      assert PcOf(s, 0).StartClaim? || PcOf(s, 0).WaitReset? || PcOf(s, 0).StartUndo? ==>
          forall r: nat :: !BeforeCleanup(s, r);
    }
  }

  lemma ThreadFlags(s: State, run: nat, event: ThreadEvent)
    requires Tracking(s) && FlagTells(s) && run in s.threads && event != Panic
    ensures FlagTells(RunThread(s, run, event))
  {
    var t := RunThread(s, run, event);
    assert PcOf(t, 0) == PcOf(s, 0);
    if event == Cleanup && s.threads[run] == Ended {
      assert BeforeCleanup(s, run);
      assert forall r: nat :: !BeforeCleanup(t, r);
    } else {
      assert forall r: nat :: BeforeCleanup(t, r) == BeforeCleanup(s, r);
    }
  }

  lemma {:induction false} SerialFlags(steps: seq<Step>)
    requires Serial(steps) && NoPanic(steps)
    ensures FlagTells(Exec(steps))
  {
    if steps != [] {
      var before, step := steps[..|steps| - 1], steps[|steps| - 1];
      var s := Exec(before);
      assert forall i | 0 <= i < |before| :: before[i] == steps[i];
      SerialRun(before);
      SerialFlags(before);
      hide Tracking, Told, Proceed, RunThread;
      match step
      case Begin(c, call) =>
        assert forall r: nat :: BeforeCleanup(Apply(s, step), r) == BeforeCleanup(s, r);
      case Advance(c, spawned) => SerialProceedFlags(s, spawned);
      case Thread(run, event) =>
        if run in s.threads {
          ThreadFlags(s, run, event);
        }
    }
  }

  /** With calls in sequence and no panic, whenever no call is in progress the controller counts as running
      if and only if some runtime is before its cleanup; so after a server has ended by itself and cleaned
      up, the next start is not refused. */
  lemma RunningIffServing(steps: seq<Step>)
    requires Serial(steps) && NoPanic(steps) && PcOf(Exec(steps), 0) == Idle
    ensures Exec(steps).shared.running <==> exists r: nat :: BeforeCleanup(Exec(steps), r)
  {
    hide Exec;
    SerialFlags(steps);
  }

  // ---- The controller itself ---------------------------------------------------------------

  function Joined(threads: map<nat, Phase>, handle: Option<nat>, panics: bool): map<nat, Phase> {
    if handle.Some? && handle.value in threads && !threads[handle.value].Gone?
    then threads[handle.value := Gone(panics)] else threads
  }

  predicate Panicked(threads: map<nat, Phase>, handle: Option<nat>) {
    handle.Some? && handle.value in threads && threads[handle.value] == Gone(true)
  }

  predicate PastCleanup(phase: Phase) {
    phase.Cleaned? || phase.Gone?
  }

  /** The controller used from one thread at a time. `threads`, `next` and `signalled` stand for the
      operating system and the channels; `trace` is the run of the machine that led here. Whether a
      thread can be spawned, and whether a joined one panics, is up to the surroundings. */
  class ServerController {
    var running: bool
    var shutdown: Option<nat>
    var thread: Option<nat>
    var threads: map<nat, Phase>
    var next: nat
    var signalled: seq<nat>
    ghost var told: set<nat>
    ghost var pc: Pc
    ghost var trace: seq<Step>

    ghost predicate Follows(s: State)
      reads this
    {
      && s.shared == Shared(running, shutdown, thread) && s.threads == threads
      && s.next == next && s.signalled == signalled && s.told == told && PcOf(s, 0) == pc
    }

    /** The object is in the state its trace leads to, and the trace is a serial run. */
    ghost predicate Mirrors()
      reads this
    {
      Serial(trace) && Follows(Exec(trace))
    }

    ghost predicate Valid()
      reads this
    {
      Mirrors() && pc == Idle
    }

    constructor ()
      ensures Valid() && trace == [] && threads == map[]
    {
      running, shutdown, thread, threads, next, signalled := false, None, None, map[], 0, [];
      told, pc, trace := {}, Idle, [];
    }

    /** The ghost side of a step whose real side has been carried out. */
    ghost method Record(step: Step)
      requires Serial(trace) && Serial([step])
      modifies this`told, this`pc, this`trace
      ensures trace == old(trace) + [step] && Serial(trace) && Exec(trace) == Apply(old(Exec(trace)), step)
      ensures told == Exec(trace).told && pc == PcOf(Exec(trace), 0)
    {
      ExecSnoc(trace, step);
      assert step == [step][0];
      trace := trace + [step];
      told, pc := Exec(trace).told, PcOf(Exec(trace), 0);
    }

    /** The runtime thread: its server returns, it cleans up under the lock, it ends, or it panics. */
    method Progress(run: nat, event: ThreadEvent)
      requires Mirrors() && run in threads
      modifies this
      ensures Mirrors() && pc == old(pc) && old(trace) < trace && Exec(trace) == RunThread(old(Exec(trace)), run, event)
      ensures thread == old(thread) && next == old(next) && signalled == old(signalled)
      ensures if event == Cleanup && old(threads[run]) == Ended
              then !running && shutdown == None
              else running == old(running) && shutdown == old(shutdown)
      ensures threads.Keys == old(threads.Keys) && forall r | r in threads && r != run :: threads[r] == old(threads[r])
      ensures event == Finish ==> threads[run] == if old(threads[run]) == Live then Ended else old(threads[run])
      ensures event == Cleanup ==> threads[run] == if old(threads[run]) == Ended then Cleaned else old(threads[run])
      ensures event == Exit ==> threads[run] == if old(threads[run]) == Cleaned then Gone(false) else old(threads[run])
      ensures event == Panic ==> threads[run] == if old(threads[run]).Gone? then old(threads[run]) else Gone(true)
    {
      hide Exec;
      match (threads[run], event) {
        case (Live, Finish) => threads := threads[run := Ended];
        case (Ended, Cleanup) =>
          running, shutdown := false, None;
          threads := threads[run := Cleaned];
        case (Cleaned, Exit) => threads := threads[run := Gone(false)];
        case (Gone(_), Panic) =>
        case (_, Panic) => threads := threads[run := Gone(true)];
        case _ =>
      }
      Record(Thread(run, event));
    }

    /** Waits for a thread: meanwhile it takes the steps it has left. */
    method Join(run: nat, panics: bool) returns (ok: bool)
      requires Mirrors() && run in threads
      modifies this
      ensures Mirrors() && pc == old(pc) && old(trace) <= trace
      ensures threads == Joined(old(threads), Some(run), panics) && ok == !Panicked(threads, Some(run))
      ensures thread == old(thread) && next == old(next) && signalled == old(signalled)
      ensures PastCleanup(old(threads[run])) ==> running == old(running) && shutdown == old(shutdown)
    {
      hide Exec, Serial;
      if panics {
        Progress(run, Panic);
      } else {
        Progress(run, Finish);
        Progress(run, Cleanup);
        Progress(run, Exit);
      }
      ok := threads[run] == Gone(false);
    }

    /** Refused without any change while running. Otherwise the previous thread is joined, and, unless
        it panicked or no thread can be spawned, a new run has flag, sender and handle stored. */
    method Start(spawned: bool, panics: bool) returns (ok: bool)
      requires Valid()
      modifies this
      ensures Valid() && old(trace) <= trace
      ensures var joined := Joined(old(threads), old(thread), panics);
              if old(running) then
                !ok && threads == old(threads) && next == old(next)
                && running && shutdown == old(shutdown) && thread == old(thread)
              else if Panicked(joined, old(thread)) then
                !ok && threads == joined && next == old(next) && !running && shutdown == old(shutdown) && thread == None
              else
                && ok == spawned && next == old(next) + 1
                && threads == joined[old(next) := if spawned then Live else Gone(false)]
                && running == spawned && shutdown == thread == if spawned then Some(old(next)) else None
      ensures signalled == old(signalled)
    {
      hide Exec, Serial, Proceed, RunThread;
      CallBegins(Call.Start);
      Record(Begin(0, Call.Start));
      ok := Reap(panics);
      if ok {
        Launch(spawned);
        ok := spawned;
      }
    }

    /** The first lock section of a start, and the join. */
    method Reap(panics: bool) returns (ok: bool)
      requires Mirrors() && pc == StartEnter
      modifies this
      ensures Mirrors() && pc == (if ok then StartClaim else Idle) && old(trace) <= trace
      ensures var joined := Joined(old(threads), old(thread), panics);
              if old(running) then !ok && threads == old(threads) && thread == old(thread)
              else ok == !Panicked(joined, old(thread)) && threads == joined && thread == None
      ensures running == old(running) && shutdown == old(shutdown) && next == old(next) && signalled == old(signalled)
    {
      hide Exec, Serial, RunThread;
      SerialFacts();
      if running {
        Record(Advance(0, true));
        return false;
      }
      var previous := thread;
      thread := None;
      Record(Advance(0, true));
      ok := true;
      if previous.Some? {
        ok := Join(previous.value, panics);
        Record(Advance(0, true));
      }
    }

    /** The second lock section, the spawn, and the third section. */
    method Launch(spawned: bool)
      requires Mirrors() && pc == StartClaim && !running && thread == None
      modifies this
      ensures Valid() && old(trace) <= trace
      ensures next == old(next) + 1 && threads == old(threads)[old(next) := if spawned then Live else Gone(false)]
      ensures running == spawned && shutdown == thread == if spawned then Some(old(next)) else None
      ensures signalled == old(signalled)
    {
      hide Exec, Serial, RunThread;
      var run := next;
      running, shutdown, next := true, Some(run), next + 1;
      Record(Advance(0, true));
      Spawn(run, spawned);
      Settle(run, spawned);
    }

    method Spawn(run: nat, spawned: bool)
      requires Mirrors() && pc == StartSpawn(run)
      modifies this
      ensures Mirrors() && pc == (if spawned then StartTrack(run) else StartUndo(run)) && old(trace) <= trace
      ensures threads == old(threads)[run := if spawned then Live else Gone(false)] && next == old(next)
      ensures running == old(running) && shutdown == old(shutdown) && thread == old(thread)
      ensures signalled == old(signalled)
    {
      hide Exec, Serial, RunThread;
      threads := threads[run := if spawned then Live else Gone(false)];
      Record(Advance(0, spawned));
    }

    method Settle(run: nat, spawned: bool)
      requires Mirrors() && pc == (if spawned then StartTrack(run) else StartUndo(run))
      modifies this
      ensures Valid() && old(trace) <= trace
      ensures threads == old(threads) && next == old(next) && signalled == old(signalled)
      ensures running == (old(running) && spawned) && shutdown == (if spawned then old(shutdown) else None)
      ensures thread == if spawned then Some(run) else old(thread)
    {
      hide Exec, Serial, RunThread;
      if spawned {
        thread := Some(run);
      } else {
        running, shutdown := false, None;
      }
      Record(Advance(0, true));
    }

    /** True exactly when a stored sender reaches a serving run; the sender is gone either way. */
    method Stop() returns (ok: bool)
      requires Valid()
      modifies this
      ensures Valid() && old(trace) <= trace
      ensures ok <==> running && old(shutdown).Some? && Receiving(old(Exec(trace)), old(shutdown).value)
      ensures running == old(running) && thread == old(thread) && threads == old(threads) && next == old(next)
      ensures shutdown == if running then None else old(shutdown)
      ensures signalled == if ok then old(signalled) + [old(shutdown).value] else old(signalled)
    {
      Record(Begin(0, Call.Stop));
      ok := SendStop(false);
    }

    method SendStop(ghost waiting: bool) returns (ok: bool)
      requires Mirrors() && pc == StopEnter(waiting)
      modifies this
      ensures Mirrors() && pc == AfterStop(waiting) && old(trace) <= trace
      ensures ok <==> running && old(shutdown).Some? && Receiving(old(Exec(trace)), old(shutdown).value)
      ensures running == old(running) && thread == old(thread) && threads == old(threads) && next == old(next)
      ensures shutdown == if running then None else old(shutdown)
      ensures signalled == if ok then old(signalled) + [old(shutdown).value] else old(signalled)
    {
      hide Exec, Serial;
      if !running {
        Record(Advance(0, true));
        return false;
      }
      var sender := shutdown;
      shutdown := None;
      Record(Advance(0, true));
      ok := sender.Some? && (sender.value in threads ==> threads[sender.value] == Live);
      if ok {
        signalled := signalled + [sender.value];
      }
      Record(Advance(0, true));
    }

    /** Afterwards no thread is alive, and flag, sender and handle are cleared; the result says whether
        the joined thread ended without panic. */
    method ShutdownAndWait(panics: bool) returns (ok: bool)
      requires Valid()
      modifies this
      ensures Valid() && old(trace) <= trace
      ensures !running && shutdown == None && thread == None && next == old(next)
      ensures threads == Joined(old(threads), old(thread), panics) && AllGone(Exec(trace))
      ensures ok == !Panicked(threads, old(thread))
    {
      hide Exec, Serial, Proceed, RunThread;
      CallBegins(Call.ShutdownAndWait);
      Record(Begin(0, Call.ShutdownAndWait));
      var _ := SendStop(true);
      ok := TakeAndJoin(panics);
      Reset();
    }

    method TakeAndJoin(panics: bool) returns (ok: bool)
      requires Mirrors() && pc == WaitTake
      modifies this
      ensures Mirrors() && pc == WaitReset && old(trace) <= trace && thread == None && next == old(next)
      ensures threads == Joined(old(threads), old(thread), panics) && ok == !Panicked(threads, old(thread))
    {
      hide Exec, Serial, RunThread;
      SerialFacts();
      var handle := thread;
      thread := None;
      Record(Advance(0, true));
      ok := true;
      if handle.Some? {
        ok := Join(handle.value, panics);
        Record(Advance(0, true));
      }
    }

    method Reset()
      requires Mirrors() && pc == WaitReset
      modifies this
      ensures Valid() && old(trace) <= trace && AllGone(Exec(trace))
      ensures !running && shutdown == None && thread == old(thread) && threads == old(threads) && next == old(next)
    {
      hide Exec, Serial;
      SerialRun(trace);
      running, shutdown := false, None;
      Record(Advance(0, true));
    }

    lemma CallBegins(call: Call)
      requires Valid()
      ensures var t := Apply(Exec(trace), Begin(0, call));
              Follows(t.(callers := Exec(trace).callers)) && PcOf(t, 0) == EntryOf(call)
    {
      hide Exec;
    }

    /** What the laws of serial runs say about the fields. */
    lemma SerialFacts()
      requires Mirrors()
      ensures thread.Some? ==> thread.value in threads
      ensures !running && thread.Some? ==> PastCleanup(threads[thread.value])
    {
      hide Exec;
      ExecKnown(trace);
      SerialRun(trace);
    }
  }
}
