/** The desktop server controller (server_controller.rs): callers that start, stop and shut down the
    server, and the runtime threads they spawn, all sharing one mutex. Every section under the lock,
    every join, spawn and send is one atomic step. A run is known by the number of its start. */
module Controller {
  import opened Wrappers

  /** The mutex-protected state; a sender and a handle are known by their run. */
  datatype Shared = Shared(running: bool, shutdown: Option<nat>, thread: Option<nat>)

  /** A runtime thread: serving; server returned; past its cleanup section; finished. A run whose
      thread could not be spawned counts as finished at once: its channel is dropped unused. */
  datatype Phase = Live | Ended | Cleaned | Gone(panicked: bool)

  datatype Call = Start | Stop | ShutdownAndWait

  datatype Pc =
    | Idle
    | StartEnter
    | StartJoin(previous: nat)
    | StartClaim
    | StartSpawn(run: nat)
    | StartTrack(run: nat)
    | StartUndo(run: nat)
    | StopEnter(waiting: bool)
    | StopSend(sender: Option<nat>, waiting: bool)
    | WaitTake
    | WaitJoin(run: nat)
    | WaitReset

  /** `next` numbers the starts. `signalled` and `told` are history: the runs for which stop reported
      success, and the runs whose sender has been used or dropped. */
  datatype State = State(
    shared: Shared, threads: map<nat, Phase>, callers: map<nat, Pc>,
    next: nat, signalled: seq<nat>, told: set<nat>)

  datatype ThreadEvent = Finish | Cleanup | Exit | Panic

  datatype Step =
    | Begin(caller: nat, call: Call)
    | Advance(caller: nat, spawned: bool)
    | Thread(run: nat, event: ThreadEvent)

  const INITIAL := State(Shared(false, None, None), map[], map[], 0, [], {})

  // ---- The machine -------------------------------------------------------------------------

  function ThreadTaken(m: Shared): Shared {
    m.(thread := None)
  }

  function Claimed(m: Shared, run: nat): Shared {
    m.(running := true, shutdown := Some(run))
  }

  function Tracked(m: Shared, run: nat): Shared {
    m.(thread := Some(run))
  }

  function Cleared(m: Shared): Shared {
    m.(running := false, shutdown := None)
  }

  function SenderTaken(m: Shared): Shared {
    m.(shutdown := None)
  }

  function Runs(o: Option<nat>): set<nat> {
    if o.Some? then {o.value} else {}
  }

  function To(s: State, c: nat, pc: Pc): State {
    s.(callers := s.callers[c := pc])
  }

  function PcOf(s: State, c: nat): Pc {
    if c in s.callers then s.callers[c] else Idle
  }

  /** The receiving end of a run's channel is dropped when its server returns. */
  predicate Receiving(s: State, run: nat) {
    run in s.threads ==> s.threads[run] == Live
  }

  predicate Joinable(s: State, run: nat) {
    run in s.threads && s.threads[run].Gone?
  }

  function AfterStop(waiting: bool): Pc {
    if waiting then WaitTake else Idle
  }

  function Proceed(s: State, c: nat, spawned: bool): State {
    var m := s.shared;
    match PcOf(s, c)
    case Idle => s
    case StartEnter =>
      if m.running then To(s, c, Idle)
      else To(s.(shared := ThreadTaken(m)), c, if m.thread.Some? then StartJoin(m.thread.value) else StartClaim)
    case StartJoin(previous) =>
      if !Joinable(s, previous) then s
      else To(s, c, if s.threads[previous].panicked then Idle else StartClaim)
    case StartClaim =>
      if m.running then To(s, c, Idle)
      else To(s.(shared := Claimed(m, s.next), next := s.next + 1), c, StartSpawn(s.next))
    case StartSpawn(run) =>
      if spawned then To(s.(threads := s.threads[run := Live]), c, StartTrack(run))
      else To(s.(threads := s.threads[run := Gone(false)]), c, StartUndo(run))
    case StartTrack(run) => To(s.(shared := Tracked(m, run)), c, Idle)
    case StartUndo(run) => To(s.(shared := Cleared(m), told := s.told + Runs(m.shutdown)), c, Idle)
    case StopEnter(waiting) =>
      if !m.running then To(s, c, AfterStop(waiting))
      else To(s.(shared := SenderTaken(m)), c, StopSend(m.shutdown, waiting))
    case StopSend(sender, waiting) =>
      To(s.(told := s.told + Runs(sender),
            signalled := s.signalled + if sender.Some? && Receiving(s, sender.value) then [sender.value] else []),
         c, AfterStop(waiting))
    case WaitTake =>
      To(s.(shared := ThreadTaken(m)), c, if m.thread.Some? then WaitJoin(m.thread.value) else WaitReset)
    case WaitJoin(run) => if Joinable(s, run) then To(s, c, WaitReset) else s
    case WaitReset => To(s.(shared := Cleared(m), told := s.told + Runs(m.shutdown)), c, Idle)
  }

  function RunThread(s: State, run: nat, event: ThreadEvent): State
    requires run in s.threads
  {
    match (s.threads[run], event)
    case (Live, Finish) => s.(threads := s.threads[run := Ended])
    case (Ended, Cleanup) =>
      s.(threads := s.threads[run := Cleaned], shared := Cleared(s.shared), told := s.told + Runs(s.shared.shutdown))
    case (Cleaned, Exit) => s.(threads := s.threads[run := Gone(false)])
    case (Live, Panic) => s.(threads := s.threads[run := Gone(true)])
    case (Ended, Panic) => s.(threads := s.threads[run := Gone(true)])
    case (Cleaned, Panic) => s.(threads := s.threads[run := Gone(true)])
    case _ => s
  }

  function EntryOf(call: Call): Pc {
    match call
    case Start => StartEnter
    case Stop => StopEnter(false)
    case ShutdownAndWait => StopEnter(true)
  }

  function Apply(s: State, step: Step): State {
    match step
    case Begin(c, call) => if PcOf(s, c) == Idle then To(s, c, EntryOf(call)) else s
    case Advance(c, spawned) => Proceed(s, c, spawned)
    case Thread(run, event) => if run in s.threads then RunThread(s, run, event) else s
  }

  function After(s: State, steps: seq<Step>): State {
    if steps == [] then s else Apply(After(s, steps[..|steps| - 1]), steps[|steps| - 1])
  }

  /** The state after a run; every interleaving of callers and threads is such a run. */
  function Exec(steps: seq<Step>): State {
    After(INITIAL, steps)
  }

  lemma ExecSnoc(steps: seq<Step>, step: Step)
    ensures Exec(steps + [step]) == Apply(Exec(steps), step)
  {
    assert (steps + [step])[..|steps|] == steps;
  }

  /** Serving, or returned but not yet cleaned up. */
  predicate BeforeCleanup(s: State, run: nat) {
    run in s.threads && (s.threads[run].Live? || s.threads[run].Ended?)
  }

  /** Between claiming a run and having spawned its thread, or having given it up. */
  predicate Launching(pc: Pc) {
    pc.StartSpawn? || pc.StartUndo?
  }

  // ---- What every run keeps ----------------------------------------------------------------

  predicate CallerKnown(s: State, c: nat) {
    match PcOf(s, c)
    case StartSpawn(r) => r < s.next && r !in s.threads
    case StartUndo(r) => r in s.threads
    case StartTrack(r) => r in s.threads
    case StartJoin(r) => r in s.threads
    case WaitJoin(r) => r in s.threads
    case _ => true
  }

  ghost predicate LaunchesApart(s: State) {
    forall c: nat, d: nat | PcOf(s, c).StartSpawn? && PcOf(s, c) == PcOf(s, d) :: c == d
  }

  /** Runs are numbered apart, and every handle is that of a thread. */
  ghost predicate Known(s: State) {
    && (forall c: nat :: CallerKnown(s, c))
    && (forall r | r in s.threads :: r < s.next)
    && LaunchesApart(s)
    && (s.shared.thread.Some? ==> s.shared.thread.value in s.threads)
  }

  lemma LaunchIsNew(s: State, c: nat, spawned: bool)
    ensures var t := Proceed(s, c, spawned);
            && (PcOf(t, c).StartSpawn? ==> PcOf(t, c).run == s.next)
            && forall d: nat | d != c :: PcOf(t, d) == PcOf(s, d)
  {
  }

  lemma ProceedKeepsApart(s: State, c: nat, spawned: bool)
    requires Known(s)
    ensures LaunchesApart(Proceed(s, c, spawned))
  {
    LaunchIsNew(s, c, spawned);
    hide Proceed, PcOf;
    forall d: nat
      ensures PcOf(s, d).StartSpawn? ==> PcOf(s, d).run < s.next
    {
      assert CallerKnown(s, d);
    }
  }

  /** Numbers and threads only grow, by the thread `c` was about to spawn; `c` stays known. */
  lemma ProceedNumbers(s: State, c: nat, spawned: bool)
    requires CallerKnown(s, c) && (forall r | r in s.threads :: r < s.next)
    requires s.shared.thread.Some? ==> s.shared.thread.value in s.threads
    ensures var t := Proceed(s, c, spawned);
            && CallerKnown(t, c) && s.next <= t.next
            && (forall r | r in t.threads :: r < t.next && (r in s.threads || PcOf(s, c) == StartSpawn(r)))
            && (forall r | r in s.threads :: r in t.threads)
            && (t.shared.thread.Some? ==> t.shared.thread.value in t.threads)
  {
  }

  lemma ProceedKeepsKnown(s: State, c: nat, spawned: bool)
    requires Known(s)
    ensures Known(Proceed(s, c, spawned))
  {
    assert CallerKnown(s, c);
    LaunchIsNew(s, c, spawned);
    ProceedNumbers(s, c, spawned);
    ProceedKeepsApart(s, c, spawned);
    hide Proceed, PcOf;
    forall d: nat
      ensures CallerKnown(Proceed(s, c, spawned), d)
    {
      assert CallerKnown(s, d);
    }
  }

  lemma ApplyKeepsKnown(s: State, step: Step)
    requires Known(s)
    ensures Known(Apply(s, step))
  {
    match step
    case Advance(c, spawned) =>
      hide Known, Proceed;
      ProceedKeepsKnown(s, c, spawned);
    case _ =>
      var t := Apply(s, step);
      forall d: nat
        ensures CallerKnown(t, d)
        ensures PcOf(t, d) == PcOf(s, d) || PcOf(t, d) in {StartEnter, StopEnter(false), StopEnter(true)}
      {
        assert CallerKnown(s, d);
      }
  }

  lemma {:induction false} ExecKnown(steps: seq<Step>)
    ensures Known(Exec(steps))
  {
    hide Apply;
    if steps != [] {
      ExecKnown(steps[..|steps| - 1]);
      ApplyKeepsKnown(Exec(steps[..|steps| - 1]), steps[|steps| - 1]);
    } else {
      assert Known(INITIAL);
    }
  }

  /** What the steps of a thread do. Its cleanup lowers the flag and drops the stored sender, whoever's they
      are, and leaves the handle; no other step touches the shared state. Nothing but a panic, and that
      only before the end, breaks the order: server over, cleaned up, finished. */
  lemma ThreadSteps(steps: seq<Step>, run: nat, event: ThreadEvent)
    requires run in Exec(steps).threads
    ensures var s, t := Exec(steps), Exec(steps + [Thread(run, event)]);
            && t.callers == s.callers && t.next == s.next && t.signalled == s.signalled
            && t.shared.thread == s.shared.thread
            && (if event == Cleanup && s.threads[run] == Ended
                then !t.shared.running && t.shared.shutdown == None
                else t.shared == s.shared)
            && t.threads.Keys == s.threads.Keys
            && (forall r | r in s.threads && r != run :: t.threads[r] == s.threads[r])
            && (event == Finish ==> t.threads[run] == if s.threads[run] == Live then Ended else s.threads[run])
            && (event == Cleanup ==> t.threads[run] == if s.threads[run] == Ended then Cleaned else s.threads[run])
            && (event == Exit ==> t.threads[run] == if s.threads[run] == Cleaned then Gone(false) else s.threads[run])
            && (event == Panic ==> t.threads[run] == if s.threads[run].Gone? then s.threads[run] else Gone(true))
  {
    hide Exec;
    ExecSnoc(steps, Thread(run, event));
  }

  /** What the sections of a call do, whoever else is at work. A start is refused while the flag is up, both
      when it enters and when it claims; it takes the handle away, waits for that thread unless it
      panicked, raises the flag together with its sender, and stores its handle, or lowers the flag if no
      thread can be spawned. A stop takes the sender away while the flag is up, and then uses it. A
      shutdown goes on to take the handle, wait for it, and lower the flag. */
  lemma CallSections(s: State, c: nat, spawned: bool)
    ensures var t := Apply(s, Advance(c, spawned));
            var now := PcOf(t, c);
            && (forall d: nat | d != c :: PcOf(t, d) == PcOf(s, d))
            && match PcOf(s, c)
               case Idle => t == s
               case StartEnter =>
                 && t.shared == s.shared.(thread := if s.shared.running then s.shared.thread else None)
                 && now == (if s.shared.running then Idle
                            else if s.shared.thread.Some? then StartJoin(s.shared.thread.value) else StartClaim)
                 && SameHistory(s, t)
               case StartJoin(r) =>
                 && t.shared == s.shared && SameHistory(s, t)
                 && now == (if !(r in s.threads && s.threads[r].Gone?) then StartJoin(r)
                            else if s.threads[r].panicked then Idle else StartClaim)
               case StartClaim =>
                 if s.shared.running then t.shared == s.shared && now == Idle && SameHistory(s, t)
                 else && t.shared == Shared(true, Some(s.next), s.shared.thread) && now == StartSpawn(s.next)
                      && t.next == s.next + 1 && t.threads == s.threads
                      && t.signalled == s.signalled && t.told == s.told
               case StartSpawn(r) =>
                 && t.shared == s.shared && t.threads == s.threads[r := if spawned then Live else Gone(false)]
                 && now == (if spawned then StartTrack(r) else StartUndo(r))
                 && t.next == s.next && t.signalled == s.signalled && t.told == s.told
               case StartTrack(r) =>
                 t.shared == s.shared.(thread := Some(r)) && now == Idle && SameHistory(s, t)
               case StopEnter(waiting) =>
                 && t.shared == s.shared.(shutdown := if s.shared.running then None else s.shared.shutdown)
                 && now == (if s.shared.running then StopSend(s.shared.shutdown, waiting)
                            else if waiting then WaitTake else Idle)
                 && SameHistory(s, t)
               case StopSend(sender, waiting) =>
                 && t.shared == s.shared && now == (if waiting then WaitTake else Idle)
                 && t.threads == s.threads && t.next == s.next
                 && t.told == s.told + (if sender.Some? then {sender.value} else {})
                 && t.signalled ==
                    if sender.Some? && (sender.value in s.threads ==> s.threads[sender.value] == Live)
                    then s.signalled + [sender.value] else s.signalled
               case WaitTake =>
                 && t.shared == s.shared.(thread := None) && SameHistory(s, t)
                 && now == (if s.shared.thread.Some? then WaitJoin(s.shared.thread.value) else WaitReset)
               case WaitJoin(r) =>
                 && t.shared == s.shared && SameHistory(s, t)
                 && now == (if r in s.threads && s.threads[r].Gone? then WaitReset else WaitJoin(r))
               case _ =>
                 && t.shared == Shared(false, None, s.shared.thread) && now == Idle
                 && t.threads == s.threads && t.next == s.next && t.signalled == s.signalled
                 && t.told == s.told + (if s.shared.shutdown.Some? then {s.shared.shutdown.value} else {})
  {
  }

  predicate SameHistory(s: State, t: State) {
    t.threads == s.threads && t.next == s.next && t.signalled == s.signalled && t.told == s.told
  }

  // ---- Stop succeeds at most once per start ------------------------------------------------

  function SenderOf(pc: Pc): Option<nat> {
    if pc.StopSend? then pc.sender else None
  }

  predicate SenderOk(s: State, c: nat) {
    var sender := SenderOf(PcOf(s, c));
    sender.Some? ==> sender.value < s.next && sender.value !in s.signalled && s.shared.shutdown != sender
  }

  predicate EachOnce(s: State) {
    && (forall i | 0 <= i < |s.signalled| :: s.signalled[i] < s.next)
    && (forall i, j | 0 <= i < j < |s.signalled| :: s.signalled[i] != s.signalled[j])
  }

  /** Each sender is in one place: stored, held by one caller, or used up. */
  ghost predicate SendersUnique(s: State) {
    && (s.shared.shutdown.Some? ==> s.shared.shutdown.value < s.next && s.shared.shutdown.value !in s.signalled)
    && (forall c: nat :: SenderOk(s, c))
    && (forall c: nat, d: nat | SenderOf(PcOf(s, c)).Some? && SenderOf(PcOf(s, c)) == SenderOf(PcOf(s, d)) :: c == d)
    && EachOnce(s)
  }

  lemma SendKeepsSenders(s: State, c: nat)
    requires SendersUnique(s) && PcOf(s, c).StopSend?
    ensures SendersUnique(Proceed(s, c, true))
  {
    var t := Proceed(s, c, true);
    assert SenderOk(s, c);
    forall d: nat
      ensures SenderOk(t, d) && (d != c ==> PcOf(t, d) == PcOf(s, d))
    {
      assert d != c ==> PcOf(t, d) == PcOf(s, d);
      assert SenderOk(s, d);
    }
  }

  lemma TakeKeepsSenders(s: State, c: nat)
    requires SendersUnique(s) && PcOf(s, c).StopEnter? && s.shared.running
    ensures SendersUnique(Proceed(s, c, true))
  {
    var t := Proceed(s, c, true);
    forall d: nat
      ensures SenderOk(t, d)
      ensures d != c ==> PcOf(t, d) == PcOf(s, d)
      ensures SenderOf(PcOf(s, d)).Some? ==> SenderOf(PcOf(s, d)) != s.shared.shutdown
    {
      assert d != c ==> PcOf(t, d) == PcOf(s, d);
      assert SenderOk(s, d);
    }
  }

  lemma ClaimKeepsSenders(s: State, c: nat)
    requires SendersUnique(s) && PcOf(s, c) == StartClaim && !s.shared.running
    ensures SendersUnique(Proceed(s, c, true))
  {
    var t := Proceed(s, c, true);
    forall d: nat
      ensures SenderOk(t, d) && SenderOf(PcOf(t, d)) == SenderOf(PcOf(s, d))
    {
      assert d != c ==> PcOf(t, d) == PcOf(s, d);
      assert SenderOk(s, d);
    }
  }

  lemma ProceedKeepsSenders(s: State, c: nat, spawned: bool)
    requires SendersUnique(s)
    ensures SendersUnique(Proceed(s, c, spawned))
  {
    hide SendersUnique;
    match PcOf(s, c)
    case StopSend(_, _) => SendKeepsSenders(s, c);
    case StopEnter(_) =>
      if s.shared.running {
        TakeKeepsSenders(s, c);
      } else {
        OthersKeepSenders(s, Proceed(s, c, spawned));
      }
    case StartClaim =>
      if !s.shared.running {
        ClaimKeepsSenders(s, c);
      } else {
        OthersKeepSenders(s, Proceed(s, c, spawned));
      }
    case _ => OthersKeepSenders(s, Proceed(s, c, spawned));
  }

  lemma OthersKeepSenders(s: State, t: State)
    requires SendersUnique(s) && t.signalled == s.signalled && t.next == s.next
    requires t.shared.shutdown == s.shared.shutdown || t.shared.shutdown == None
    requires forall d: nat :: PcOf(t, d) == PcOf(s, d) || SenderOf(PcOf(t, d)) == None
    ensures SendersUnique(t)
  {
    forall d: nat
      ensures SenderOk(t, d)
    {
      assert SenderOk(s, d);
    }
  }

  lemma ApplyKeepsSenders(s: State, step: Step)
    requires SendersUnique(s)
    ensures SendersUnique(Apply(s, step))
  {
    hide SendersUnique;
    match step
    case Begin(_, _) => OthersKeepSenders(s, Apply(s, step));
    case Thread(_, _) => OthersKeepSenders(s, Apply(s, step));
    case Advance(c, spawned) => ProceedKeepsSenders(s, c, spawned);
  }

  /** In every run, under every interleaving of all three calls, stop reports success at most once
      for each start. */
  lemma {:induction false} StopSucceedsOncePerStart(steps: seq<Step>)
    ensures SendersUnique(Exec(steps)) && EachOnce(Exec(steps))
  {
    hide Apply;
    if steps != [] {
      StopSucceedsOncePerStart(steps[..|steps| - 1]);
      ApplyKeepsSenders(Exec(steps[..|steps| - 1]), steps[|steps| - 1]);
    }
  }
}
