/** At most one runtime: when the start, stop and shutdown calls of the controller keep to it, exactly
    which step endangers it, and two runs of calls that break it. */
module Exclusion {
  import opened Wrappers
  import opened Controller

  // ---- At most one live runtime ------------------------------------------------------------

  /** No run is being launched, and none is before its cleanup. */
  ghost predicate Calm(s: State) {
    && (forall c: nat :: !Launching(PcOf(s, c)))
    && (forall r: nat :: !BeforeCleanup(s, r))
  }

  /** The last step of shutdown_and_wait, taken while the flag still stands for some run. */
  ghost predicate HarmfulReset(s: State, step: Step) {
    step.Advance? && PcOf(s, step.caller) == WaitReset && !Calm(s)
  }

  /** No reset on the way is harmful. In particular a run of start and stop calls only. */
  ghost predicate Guarded(s: State, steps: seq<Step>) {
    forall k | 0 <= k < |steps| :: !HarmfulReset(After(s, steps[..k]), steps[k])
  }

  predicate OwnerOk(s: State, c: nat) {
    match PcOf(s, c)
    case StartSpawn(r) => s.shared.running && r == s.next - 1
    case StartUndo(r) => s.shared.running && r == s.next - 1 && !BeforeCleanup(s, r)
    case StartJoin(r) => !BeforeCleanup(s, r)
    case _ => true
  }

  predicate ThreadOk(s: State, r: nat) {
    BeforeCleanup(s, r) ==> s.shared.running && r == s.next - 1
  }

  /** The latest start owns the running flag and the sender; a start joins only a run past its cleanup. */
  ghost predicate Exclusive(s: State) {
    && Known(s)
    && (forall c: nat :: OwnerOk(s, c))
    && (forall r: nat :: ThreadOk(s, r))
    && (forall c: nat, d: nat | Launching(PcOf(s, c)) && Launching(PcOf(s, d)) :: c == d)
    && (s.shared.shutdown.Some? ==> s.shared.running && s.shared.shutdown.value == s.next - 1)
  }

  /** Only the place of caller `c` changes, and perhaps a sender or a handle is taken or stored. */
  lemma PlaceKeepsExclusive(s: State, t: State, c: nat)
    requires Exclusive(s) && Known(t) && t.threads == s.threads && t.next == s.next
    requires t.shared.running == s.shared.running
    requires t.shared.shutdown.Some? ==> t.shared.shutdown == s.shared.shutdown
    requires t.callers == s.callers[c := PcOf(t, c)]
    requires OwnerOk(t, c) && (Launching(PcOf(t, c)) ==> Launching(PcOf(s, c)))
    ensures Exclusive(t)
  {
    forall d: nat
      ensures OwnerOk(t, d) && (Launching(PcOf(t, d)) ==> Launching(PcOf(s, d)))
    {
      assert d != c ==> PcOf(t, d) == PcOf(s, d);
      assert OwnerOk(s, d);
    }
    forall r: nat
      ensures ThreadOk(t, r)
    {
      assert ThreadOk(s, r);
    }
  }

  lemma ClaimKeepsExclusive(s: State, c: nat)
    requires Exclusive(s) && PcOf(s, c) == StartClaim && !s.shared.running
    ensures Exclusive(Proceed(s, c, true))
  {
    var t := Proceed(s, c, true);
    ProceedKeepsKnown(s, c, true);
    forall d: nat
      ensures OwnerOk(t, d) && (d != c ==> !Launching(PcOf(t, d)))
    {
      assert d != c ==> PcOf(t, d) == PcOf(s, d);
      assert OwnerOk(s, d);
    }
    forall r: nat
      ensures ThreadOk(t, r)
    {
      assert ThreadOk(s, r);
    }
  }

  /** Spawning and giving up: the caller that is launching is the only one. */
  lemma LaunchKeepsExclusive(s: State, c: nat, spawned: bool)
    requires Exclusive(s) && Launching(PcOf(s, c))
    ensures Exclusive(Proceed(s, c, spawned))
  {
    var t := Proceed(s, c, spawned);
    ProceedKeepsKnown(s, c, spawned);
    assert OwnerOk(s, c) && CallerKnown(s, c);
    forall d: nat
      ensures OwnerOk(t, d) && (d != c ==> !Launching(PcOf(t, d)))
    {
      assert d != c ==> PcOf(t, d) == PcOf(s, d);
      assert OwnerOk(s, d) && CallerKnown(s, d);
    }
    forall r: nat
      ensures ThreadOk(t, r)
    {
      assert ThreadOk(s, r);
    }
  }

  /** A reset while no run is in use leaves nothing that could go wrong, whatever went before. */
  lemma CalmResetIsExclusive(s: State, c: nat, spawned: bool)
    requires Known(s) && PcOf(s, c) == WaitReset && Calm(s)
    ensures Exclusive(Proceed(s, c, spawned))
  {
    var t := Proceed(s, c, spawned);
    ProceedKeepsKnown(s, c, spawned);
    forall d: nat
      ensures OwnerOk(t, d) && !Launching(PcOf(t, d))
    {
      assert d != c ==> PcOf(t, d) == PcOf(s, d);
      assert !Launching(PcOf(s, d));
      assert PcOf(s, d).StartJoin? ==> !BeforeCleanup(s, PcOf(s, d).previous);
    }
    forall r: nat
      ensures ThreadOk(t, r)
    {
      assert !BeforeCleanup(s, r);
    }
  }

  lemma KnownCaller(s: State, c: nat)
    requires Exclusive(s)
    ensures OwnerOk(s, c) && Known(s)
    ensures s.shared.thread.Some? ==> s.shared.thread.value in s.threads && ThreadOk(s, s.shared.thread.value)
  {
  }

  lemma ProceedKeepsExclusive(s: State, c: nat, spawned: bool)
    requires Exclusive(s) && !HarmfulReset(s, Advance(c, spawned))
    ensures Exclusive(Proceed(s, c, spawned))
  {
    hide Exclusive, Known, Calm;
    KnownCaller(s, c);
    ProceedKeepsKnown(s, c, spawned);
    match PcOf(s, c)
    case Idle =>
    case StartJoin(p) =>
      if Joinable(s, p) {
        PlaceKeepsExclusive(s, Proceed(s, c, spawned), c);
      }
    case StartClaim =>
      if s.shared.running {
        PlaceKeepsExclusive(s, Proceed(s, c, spawned), c);
      } else {
        ClaimKeepsExclusive(s, c);
      }
    case StartSpawn(_) => LaunchKeepsExclusive(s, c, spawned);
    case StartUndo(_) => LaunchKeepsExclusive(s, c, spawned);
    case WaitJoin(p) =>
      if Joinable(s, p) {
        PlaceKeepsExclusive(s, Proceed(s, c, spawned), c);
      }
    case WaitReset => CalmResetIsExclusive(s, c, spawned);
    case _ => PlaceKeepsExclusive(s, Proceed(s, c, spawned), c);
  }

  lemma ThreadKeepsExclusive(s: State, run: nat, event: ThreadEvent)
    requires Exclusive(s) && run in s.threads
    ensures Exclusive(RunThread(s, run, event))
  {
    var t := RunThread(s, run, event);
    ApplyKeepsKnown(s, Thread(run, event));
    assert ThreadOk(s, run);
    forall d: nat
      ensures PcOf(t, d) == PcOf(s, d) && OwnerOk(t, d)
    {
      assert OwnerOk(s, d) && CallerKnown(s, d);
    }
    forall r: nat
      ensures ThreadOk(t, r)
    {
      assert ThreadOk(s, r);
    }
  }

  lemma BeginKeepsExclusive(s: State, c: nat, call: Call)
    requires Exclusive(s) && PcOf(s, c) == Idle
    ensures Exclusive(To(s, c, EntryOf(call)))
  {
    ApplyKeepsKnown(s, Begin(c, call));
    PlaceKeepsExclusive(s, To(s, c, EntryOf(call)), c);
  }

  lemma ApplyKeepsExclusive(s: State, step: Step)
    requires Exclusive(s) && !HarmfulReset(s, step)
    ensures Exclusive(Apply(s, step))
  {
    hide Exclusive, Proceed, RunThread, HarmfulReset;
    match step
    case Begin(c, call) =>
      if PcOf(s, c) == Idle {
        BeginKeepsExclusive(s, c, call);
      }
    case Advance(c, spawned) => ProceedKeepsExclusive(s, c, spawned);
    case Thread(run, event) =>
      if run in s.threads {
        ThreadKeepsExclusive(s, run, event);
      }
  }

  lemma GuardedPrefix(s: State, steps: seq<Step>, n: nat)
    requires Guarded(s, steps) && n <= |steps|
    ensures Guarded(s, steps[..n])
  {
    hide HarmfulReset;
    forall k | 0 <= k < n
      ensures !HarmfulReset(After(s, steps[..n][..k]), steps[..n][k])
    {
      assert steps[..n][..k] == steps[..k];
    }
  }

  lemma {:induction false} GuardedRunIsExclusive(s: State, steps: seq<Step>)
    requires Exclusive(s) && Guarded(s, steps)
    ensures Exclusive(After(s, steps))
    decreases |steps|
  {
    hide Exclusive, Apply, HarmfulReset;
    if steps != [] {
      GuardedPrefix(s, steps, |steps| - 1);
      GuardedRunIsExclusive(s, steps[..|steps| - 1]);
      ApplyKeepsExclusive(After(s, steps[..|steps| - 1]), steps[|steps| - 1]);
    }
  }

  lemma InitiallyExclusive()
    ensures Exclusive(INITIAL)
  {
  }

  ghost predicate OneRuntime(s: State) {
    forall r: nat, q: nat | BeforeCleanup(s, r) && BeforeCleanup(s, q) :: r == q
  }

  lemma ExclusiveHasOne(s: State)
    requires Exclusive(s)
    ensures OneRuntime(s)
  {
    forall r: nat | BeforeCleanup(s, r)
      ensures r == s.next - 1
    {
      assert ThreadOk(s, r);
    }
  }

  /** However the three calls interleave with each other and with the threads, as long as no reset is
      harmful at most one runtime is launching or before its cleanup, and `running` is set while one is. */
  lemma AtMostOneRuntime(steps: seq<Step>)
    requires Guarded(INITIAL, steps)
    ensures var s := Exec(steps);
            && OneRuntime(s)
            && (forall c: nat, d: nat | Launching(PcOf(s, c)) && Launching(PcOf(s, d)) :: c == d)
            && (forall c: nat, r: nat | Launching(PcOf(s, c)) :: !BeforeCleanup(s, r))
            && (forall r: nat | BeforeCleanup(s, r) :: s.shared.running)
  {
    hide After, Guarded;
    var s := Exec(steps);
    InitiallyExclusive();
    GuardedRunIsExclusive(INITIAL, steps);
    ExclusiveHasOne(s);
    forall r: nat | BeforeCleanup(s, r)
      ensures s.shared.running && r == s.next - 1
    {
      assert ThreadOk(s, r);
    }
    forall c: nat, r: nat | Launching(PcOf(s, c))
      ensures !BeforeCleanup(s, r)
    {
      assert OwnerOk(s, c) && CallerKnown(s, c);
    }
  }

  /** A cleanup clears only its own run's flag and sender: no newer run exists, none is being
      launched, and the sender it finds, if any, is its own. */
  lemma CleanupIsOwn(steps: seq<Step>, run: nat)
    requires Guarded(INITIAL, steps) && BeforeCleanup(Exec(steps), run)
    ensures var s := Exec(steps);
            && s.shared.running && run == s.next - 1
            && (s.shared.shutdown == None || s.shared.shutdown == Some(run))
            && forall c: nat :: !Launching(PcOf(s, c))
  {
    hide After, Guarded;
    InitiallyExclusive();
    GuardedRunIsExclusive(INITIAL, steps);
    AtMostOneRuntime(steps);
    assert ThreadOk(Exec(steps), run);
  }

  /** A start never waits for a server that is still serving: the thread it joins is past its cleanup. */
  lemma StartJoinsFinishedServer(steps: seq<Step>, c: nat)
    requires Guarded(INITIAL, steps) && PcOf(Exec(steps), c).StartJoin?
    ensures var s := Exec(steps); PcOf(s, c).previous in s.threads && !BeforeCleanup(s, PcOf(s, c).previous)
  {
    hide After, Guarded;
    InitiallyExclusive();
    GuardedRunIsExclusive(INITIAL, steps);
    assert OwnerOk(Exec(steps), c) && CallerKnown(Exec(steps), c);
  }

  // ---- Exactly when the exclusion is safe --------------------------------------------------

  ghost predicate Reaches(s: State, t: State) {
    exists more :: Guarded(s, more) && After(s, more) == t
  }

  /** No continuation without a harmful reset of its own leads to two runtimes. */
  ghost predicate Unbreakable(s: State) {
    forall t | Reaches(s, t) :: OneRuntime(t)
  }

  lemma ExclusiveIsUnbreakable(s: State)
    requires Exclusive(s)
    ensures Unbreakable(s)
  {
    hide Exclusive, Guarded, OneRuntime, After;
    forall t | Reaches(s, t)
      ensures OneRuntime(t)
    {
      var more :| Guarded(s, more) && After(s, more) == t;
      GuardedRunIsExclusive(s, more);
      ExclusiveHasOne(t);
    }
  }

  lemma ReachesItself(s: State)
    ensures Reaches(s, s)
  {
    assert Guarded(s, []) && After(s, []) == s;
  }

  lemma ReachesNext(s: State, t: State, step: Step)
    requires Reaches(s, t) && !HarmfulReset(t, step)
    ensures Reaches(s, Apply(t, step))
  {
    hide HarmfulReset, Apply;
    var more :| Guarded(s, more) && After(s, more) == t;
    var longer := more + [step];
    assert longer[..|more|] == more;
    assert After(s, longer) == Apply(t, step);
    forall k | 0 <= k < |longer|
      ensures !HarmfulReset(After(s, longer[..k]), longer[k])
    {
      assert k < |more| ==> longer[..k] == more[..k];
    }
  }

  /** A caller makes a call and takes three steps of it. */
  function CalledAndAdvanced(s: State, c: nat, call: Call): State {
    Apply(Apply(Apply(Apply(s, Begin(c, call)), Advance(c, true)), Advance(c, true)), Advance(c, true))
  }

  /** With the flag down and no handle stored, a new caller's start spawns the next run. */
  lemma StartSpawnsNext(s: State, t: State, c: nat)
    requires Reaches(s, t) && c !in t.callers && !t.shared.running && t.shared.thread == None
    ensures var next := CalledAndAdvanced(t, c, Start);
            && Reaches(s, next) && next.threads == t.threads[t.next := Live] && next.next == t.next + 1
            && next.shared == Shared(true, Some(t.next), None) && next.callers == t.callers[c := StartTrack(t.next)]
  {
    hide Calm, Reaches;
    var t1 := Apply(t, Begin(c, Start));
    ReachesNext(s, t, Begin(c, Start));
    var t2 := Apply(t1, Advance(c, true));
    ReachesNext(s, t1, Advance(c, true));
    assert PcOf(t2, c) == StartClaim;
    ReachesNext(s, t2, Advance(c, true));
    ReachesNext(s, Apply(t2, Advance(c, true)), Advance(c, true));
  }

  /** With the flag down, a new caller's start leaves no handle stored. */
  lemma StartTakesHandle(s: State, t: State, c: nat) returns (next: State)
    requires Reaches(s, t) && c !in t.callers && !t.shared.running
    ensures Reaches(s, next) && next.threads == t.threads && next.next == t.next
    ensures next.shared == ThreadTaken(t.shared) && next.callers == t.callers[c := PcOf(next, c)]
  {
    hide Calm, Reaches;
    var t1 := Apply(t, Begin(c, Start));
    ReachesNext(s, t, Begin(c, Start));
    next := Apply(t1, Advance(c, true));
    ReachesNext(s, t1, Advance(c, true));
  }

  lemma {:induction false} NewCallers(known: set<nat>) returns (first: nat)
    ensures forall c | c in known :: c < first
    decreases |known|
  {
    if known == {} {
      first := 0;
    } else {
      var c :| c in known;
      var others := NewCallers(known - {c});
      first := if c < others then others else c + 1;
      assert forall d | d in known :: d == c || d in known - {c};
    }
  }

  /** The flag is down while a run is before its cleanup: two more starts make a second one. */
  lemma SecondRuntime(s: State, t: State, run: nat)
    requires Reaches(s, t) && Known(t) && !t.shared.running && BeforeCleanup(t, run)
    ensures !Unbreakable(s)
  {
    hide Reaches, Calm;
    var a := NewCallers(t.callers.Keys);
    var u := StartTakesHandle(s, t, a);
    StartSpawnsNext(s, u, a + 1);
    var v := CalledAndAdvanced(u, a + 1, Start);
    assert BeforeCleanup(v, run) && BeforeCleanup(v, t.next) && run < t.next;
  }

  /** The flag is down while a start is about to give up its run: it will take down the flag of the
      next run, too. */
  lemma SecondRuntimeAfterUndo(s: State, t: State, d: nat)
    requires Reaches(s, t) && Known(t) && !t.shared.running && PcOf(t, d).StartUndo?
    ensures !Unbreakable(s)
  {
    hide Reaches, Calm, Known, Apply, CalledAndAdvanced;
    var a := NewCallers(t.callers.Keys);
    var u := StartTakesHandle(s, t, a);
    StartSpawnsNext(s, u, a + 1);
    var v := CalledAndAdvanced(u, a + 1, Start);
    assert PcOf(v, d) == PcOf(t, d);
    UndoLowersFlag(s, v, d);
    var x := Apply(v, Advance(d, true));
    StartSpawnsNext(s, x, a + 2);
    var y := CalledAndAdvanced(x, a + 2, Start);
    assert BeforeCleanup(y, t.next) && BeforeCleanup(y, t.next + 1);
  }

  lemma UndoLowersFlag(s: State, t: State, d: nat)
    requires Reaches(s, t) && PcOf(t, d).StartUndo?
    ensures var next := Apply(t, Advance(d, true));
            && Reaches(s, next) && next.threads == t.threads && next.next == t.next
            && next.shared == Cleared(t.shared) && next.callers == t.callers[d := Idle]
  {
    hide Reaches, Calm;
    ReachesNext(s, t, Advance(d, true));
  }

  lemma HarmfulResetBreaks(s: State, c: nat, spawned: bool)
    requires Known(s) && HarmfulReset(s, Advance(c, spawned))
    ensures !Unbreakable(Apply(s, Advance(c, spawned)))
  {
    hide Unbreakable, Reaches, Known;
    var t := Apply(s, Advance(c, spawned));
    ApplyKeepsKnown(s, Advance(c, spawned));
    ReachesItself(t);
    if run: nat :| BeforeCleanup(s, run) {
      SecondRuntime(t, t, run);
    } else {
      var d: nat :| Launching(PcOf(s, d));
      assert PcOf(t, d) == PcOf(s, d);
      if PcOf(t, d).StartUndo? {
        SecondRuntimeAfterUndo(t, t, d);
      } else {
        ReachesNext(t, t, Advance(d, true));
        ApplyKeepsKnown(t, Advance(d, true));
        SecondRuntime(t, Apply(t, Advance(d, true)), PcOf(t, d).run);
      }
    }
  }

  /** In every state any run can reach, the reset that ends a shutdown_and_wait is safe for the
      exclusion if and only if no run is being launched or before its cleanup. */
  lemma ResetIsSafeIffCalm(steps: seq<Step>, c: nat, spawned: bool)
    requires PcOf(Exec(steps), c) == WaitReset
    ensures Unbreakable(Apply(Exec(steps), Advance(c, spawned))) <==> Calm(Exec(steps))
  {
    hide After, Unbreakable, Calm, Known, Exclusive;
    ExecKnown(steps);
    if Calm(Exec(steps)) {
      CalmResetIsExclusive(Exec(steps), c, spawned);
      ExclusiveIsUnbreakable(Apply(Exec(steps), Advance(c, spawned)));
    } else {
      HarmfulResetBreaks(Exec(steps), c, spawned);
    }
  }

  /** Over whole runs: the exclusion is out of danger at every moment of a run if and only if the run
      takes no reset while a run is being launched or before its cleanup. */
  lemma ExclusionIsSafeIffGuarded(steps: seq<Step>)
    ensures (forall k | 0 <= k <= |steps| :: Unbreakable(Exec(steps[..k]))) <==> Guarded(INITIAL, steps)
  {
    hide HarmfulReset, Unbreakable, Apply, Exclusive, Known;
    if Guarded(INITIAL, steps) {
      forall k | 0 <= k <= |steps|
        ensures Unbreakable(Exec(steps[..k]))
      {
        InitiallyExclusive();
        GuardedPrefix(INITIAL, steps, k);
        GuardedRunIsExclusive(INITIAL, steps[..k]);
        ExclusiveIsUnbreakable(Exec(steps[..k]));
      }
    } else {
      var k :| 0 <= k < |steps| && HarmfulReset(After(INITIAL, steps[..k]), steps[k]);
      ExecKnown(steps[..k]);
      HarmfulStepIsReset(Exec(steps[..k]), steps[k]);
      HarmfulResetBreaks(Exec(steps[..k]), steps[k].caller, steps[k].spawned);
      assert steps[..k + 1][..k] == steps[..k];
      assert !Unbreakable(Exec(steps[..k + 1]));
    }
  }

  lemma HarmfulStepIsReset(s: State, step: Step)
    requires HarmfulReset(s, step)
    ensures step.Advance?
  {
  }

  // ---- Coordinated calls -------------------------------------------------------------------

  predicate InStart(pc: Pc) {
    pc.StartEnter? || pc.StartJoin? || pc.StartClaim? || pc.StartSpawn? || pc.StartTrack? || pc.StartUndo?
  }

  predicate InShutdown(pc: Pc) {
    || ((pc.StopEnter? || pc.StopSend?) && pc.waiting)
    || pc.WaitTake? || pc.WaitJoin? || pc.WaitReset?
  }

  /** A start in progress is alone, up to calls of stop. */
  ghost predicate StartsAlone(s: State) {
    forall c: nat, d: nat | c != d && InStart(PcOf(s, c)) :: !InStart(PcOf(s, d)) && !InShutdown(PcOf(s, d))
  }

  /** No start is ever in progress together with another start or a shutdown_and_wait. */
  ghost predicate Coordinated(steps: seq<Step>) {
    forall k | 0 <= k <= |steps| :: StartsAlone(Exec(steps[..k]))
  }

  predicate Unfinished(s: State, r: nat) {
    r in s.threads && !s.threads[r].Gone?
  }

  predicate Holds(pc: Pc, r: nat) {
    pc == StartJoin(r) || pc == StartTrack(r) || pc == WaitJoin(r)
  }

  /** The handle of `r` is stored, or a call in progress holds it. */
  ghost predicate Held(s: State, r: nat) {
    s.shared.thread == Some(r) || exists c: nat :: Holds(PcOf(s, c), r)
  }

  ghost predicate AllHeld(s: State) {
    && (forall r: nat | Unfinished(s, r) :: Held(s, r))
    && (forall r: nat, q: nat | Unfinished(s, r) && Unfinished(s, q) :: r == q)
    && (forall c: nat | InStart(PcOf(s, c)) && PcOf(s, c) != StartEnter :: s.shared.thread == None)
  }

  /** When a start has the stage to itself and holds no handle, every thread has finished. */
  lemma LoneStartFindsAllFinished(s: State, c: nat)
    requires AllHeld(s) && StartsAlone(s)
    requires PcOf(s, c) == StartClaim || PcOf(s, c).StartSpawn? || PcOf(s, c).StartUndo?
    ensures forall r: nat :: !Unfinished(s, r)
  {
    forall r: nat
      ensures !Unfinished(s, r)
    {
      assert forall d: nat :: !Holds(PcOf(s, d), r);
      assert !Held(s, r);
    }
  }

  lemma SpawnKeepsHeld(s: State, c: nat, spawned: bool)
    requires AllHeld(s) && StartsAlone(s) && PcOf(s, c).StartSpawn?
    ensures AllHeld(Proceed(s, c, spawned))
  {
    var t := Proceed(s, c, spawned);
    LoneStartFindsAllFinished(s, c);
    if spawned {
      assert Holds(PcOf(t, c), PcOf(s, c).run);
      assert forall r: nat | Unfinished(t, r) :: Unfinished(s, r) || r == PcOf(s, c).run;
    } else {
      assert forall r: nat :: Unfinished(t, r) ==> Unfinished(s, r);
    }
    forall d: nat | InStart(PcOf(t, d)) && PcOf(t, d) != StartEnter
      ensures t.shared.thread == None
    {
      assert d != c ==> PcOf(t, d) == PcOf(s, d);
    }
  }

  /** Threads stay as they are; whatever held an unfinished run, or its stored handle, still does. */
  lemma PlaceKeepsHeld(s: State, c: nat, spawned: bool)
    requires AllHeld(s) && StartsAlone(s) && !PcOf(s, c).StartSpawn?
    ensures AllHeld(Proceed(s, c, spawned))
  {
    var t := Proceed(s, c, spawned);
    assert forall r: nat :: Unfinished(t, r) == Unfinished(s, r);
    assert forall d: nat | d != c :: PcOf(t, d) == PcOf(s, d);
    forall r: nat | Unfinished(t, r)
      ensures Held(t, r)
    {
      assert Unfinished(s, r) && Held(s, r);
      assert Holds(PcOf(t, c), r) ==> Held(t, r);
      if s.shared.thread != Some(r) {
        var d: nat :| Holds(PcOf(s, d), r);
        assert d != c ==> PcOf(t, d) == PcOf(s, d) && Holds(PcOf(t, d), r);
      }
    }
    forall d: nat | InStart(PcOf(t, d)) && PcOf(t, d) != StartEnter
      ensures t.shared.thread == None
    {
      assert d != c ==> PcOf(t, d) == PcOf(s, d);
    }
  }

  /** No thread is started, no handle moves, and callers at most begin a call. */
  lemma QuietKeepsHeld(s: State, t: State)
    requires AllHeld(s) && t.shared.thread == s.shared.thread
    requires forall r: nat :: Unfinished(t, r) ==> Unfinished(s, r)
    requires forall c: nat ::
      PcOf(t, c) == PcOf(s, c) || (PcOf(s, c) == Idle && PcOf(t, c) in {StartEnter, StopEnter(false), StopEnter(true)})
    ensures AllHeld(t)
  {
    hide PcOf, Unfinished;
    forall r: nat | Unfinished(t, r)
      ensures Held(t, r)
    {
      assert Held(s, r);
      if s.shared.thread != Some(r) {
        var d: nat :| Holds(PcOf(s, d), r);
        assert Holds(PcOf(t, d), r);
      }
    }
  }

  lemma ApplyKeepsHeld(s: State, step: Step)
    requires AllHeld(s) && StartsAlone(s)
    ensures AllHeld(Apply(s, step))
  {
    match step
    case Advance(c, spawned) =>
      hide AllHeld, StartsAlone, Proceed;
      if PcOf(s, c).StartSpawn? {
        SpawnKeepsHeld(s, c, spawned);
      } else {
        PlaceKeepsHeld(s, c, spawned);
      }
    case _ =>
      hide AllHeld, StartsAlone;
      QuietKeepsHeld(s, Apply(s, step));
  }

  lemma {:induction false} CoordinatedRunIsHeld(steps: seq<Step>)
    requires Coordinated(steps)
    ensures AllHeld(Exec(steps)) && StartsAlone(Exec(steps))
  {
    hide Apply, AllHeld, StartsAlone;
    assert steps[..|steps|] == steps;
    if steps == [] {
      assert AllHeld(INITIAL) by { NothingToHold(); }
    } else {
      var before := steps[..|steps| - 1];
      forall k | 0 <= k <= |before|
        ensures StartsAlone(Exec(before[..k]))
      {
        assert before[..k] == steps[..k];
      }
      CoordinatedRunIsHeld(before);
      ApplyKeepsHeld(Exec(before), steps[|steps| - 1]);
    }
  }

  lemma NothingToHold()
    ensures AllHeld(INITIAL)
  {
  }

  /** If no start is in progress together with another start or a shutdown_and_wait, then however
      stops, threads and concurrent shutdowns interleave, at most one runtime thread is unfinished. */
  lemma CoordinatedCallsKeepOne(steps: seq<Step>)
    requires Coordinated(steps)
    ensures forall r: nat, q: nat | Unfinished(Exec(steps), r) && Unfinished(Exec(steps), q) :: r == q
    ensures OneRuntime(Exec(steps))
  {
    hide After, Coordinated;
    CoordinatedRunIsHeld(steps);
    assert forall r: nat :: BeforeCleanup(Exec(steps), r) ==> Unfinished(Exec(steps), r);
  }

  // ---- A shutdown during a start -----------------------------------------------------------

  /** Coordination is needed: a shutdown_and_wait that finds a start between spawning its thread and
      storing the handle joins nothing, clears the flag, and lets a second runtime start beside the
      first. */
  lemma ShutdownDuringStartBreaksExclusion() returns (steps: seq<Step>)
    ensures BeforeCleanup(Exec(steps), 0) && BeforeCleanup(Exec(steps), 1)
  {
    SpawnStage();
    ShutdownStage();
    RestartStage();
    assert Exec([]) == INITIAL;
    hide Apply, Exec, CalledAndAdvanced;
    steps := RunCall([], 0, Start);
    steps := RunCall(steps, 1, ShutdownAndWait);
    ExecSnoc(steps, Advance(1, true));
    steps := RunCall(steps + [Advance(1, true)], 2, Start);
  }

  /** A start that has spawned thread 0 and not yet stored its handle. */
  const MID_START := State(Shared(true, Some(0), None), map[0 := Live], map[0 := StartTrack(0)], 1, [], {})

  /** A shutdown_and_wait that found no handle, before and after it resets the flag. */
  const MID_SHUTDOWN :=
    State(Shared(true, None, None), map[0 := Live], map[0 := StartTrack(0), 1 := WaitReset], 1, [0], {0})
  const AFTER_SHUTDOWN :=
    State(Shared(false, None, None), map[0 := Live], map[0 := StartTrack(0), 1 := Idle], 1, [0], {0})

  lemma SpawnStage()
    ensures CalledAndAdvanced(INITIAL, 0, Start) == MID_START
  {
    var s := Apply(Apply(INITIAL, Begin(0, Start)), Advance(0, true));
    assert s == INITIAL.(callers := map[0 := StartClaim]);
    assert Apply(s, Advance(0, true)) == State(Shared(true, Some(0), None), map[], map[0 := StartSpawn(0)], 1, [], {});
  }

  lemma ShutdownStage()
    ensures CalledAndAdvanced(MID_START, 1, ShutdownAndWait) == MID_SHUTDOWN
    ensures Apply(MID_SHUTDOWN, Advance(1, true)) == AFTER_SHUTDOWN
  {
    var s := Apply(Apply(MID_START, Begin(1, ShutdownAndWait)), Advance(1, true));
    assert s == MID_START.(shared := Shared(true, None, None),
                           callers := map[0 := StartTrack(0), 1 := StopSend(Some(0), true)]);
    assert Apply(s, Advance(1, true)) == MID_SHUTDOWN.(callers := map[0 := StartTrack(0), 1 := WaitTake]);
  }

  lemma RestartStage()
    ensures var t := CalledAndAdvanced(AFTER_SHUTDOWN, 2, Start); BeforeCleanup(t, 0) && BeforeCleanup(t, 1)
  {
    var s := Apply(Apply(AFTER_SHUTDOWN, Begin(2, Start)), Advance(2, true));
    assert s == AFTER_SHUTDOWN.(callers := map[0 := StartTrack(0), 1 := Idle, 2 := StartClaim]);
    assert PcOf(Apply(s, Advance(2, true)), 2) == StartSpawn(1);
  }

  lemma RunCall(steps: seq<Step>, c: nat, call: Call) returns (longer: seq<Step>)
    ensures Exec(longer) == CalledAndAdvanced(Exec(steps), c, call)
  {
    hide Apply, Exec;
    var a, b := steps + [Begin(c, call)], steps + [Begin(c, call)] + [Advance(c, true)];
    longer := b + [Advance(c, true)] + [Advance(c, true)];
    ExecSnoc(steps, Begin(c, call));
    ExecSnoc(a, Advance(c, true));
    ExecSnoc(b, Advance(c, true));
    ExecSnoc(b + [Advance(c, true)], Advance(c, true));
  }

  // ---- A shutdown after two overlapping starts ---------------------------------------------

  /** No start has ever been in progress together with a shutdown_and_wait. */
  ghost predicate ShutdownsApart(steps: seq<Step>) {
    forall k | 0 <= k <= |steps| :: OutOfShutdown(Exec(steps[..k])) || OutOfStart(Exec(steps[..k]))
  }

  ghost predicate OutOfShutdown(s: State) {
    forall c: nat :: !InShutdown(PcOf(s, c))
  }

  ghost predicate OutOfStart(s: State) {
    forall c: nat :: !InStart(PcOf(s, c))
  }

  lemma OneMore(steps: seq<Step>, step: Step)
    requires ShutdownsApart(steps)
    requires var t := Apply(Exec(steps), step); OutOfShutdown(t) || OutOfStart(t)
    ensures ShutdownsApart(steps + [step]) && Exec(steps + [step]) == Apply(Exec(steps), step)
  {
    hide Apply, OutOfShutdown, OutOfStart;
    var longer := steps + [step];
    ExecSnoc(steps, step);
    forall k | 0 <= k <= |longer|
      ensures OutOfShutdown(Exec(longer[..k])) || OutOfStart(Exec(longer[..k]))
    {
      assert k <= |steps| ==> longer[..k] == steps[..k];
      assert k > |steps| ==> longer[..k] == longer;
    }
  }

  /** No step but the first leads into a call. */
  lemma AdvanceEntersNothing(s: State, c: nat, spawned: bool)
    ensures var t := Apply(s, Advance(c, spawned));
            && (InShutdown(PcOf(t, c)) ==> InShutdown(PcOf(s, c)))
            && (InStart(PcOf(t, c)) ==> InStart(PcOf(s, c)))
            && forall d: nat | d != c :: PcOf(t, d) == PcOf(s, d)
  {
  }

  lemma Advanced(s: State, c: nat, spawned: bool)
    ensures OutOfShutdown(s) ==> OutOfShutdown(Apply(s, Advance(c, spawned)))
    ensures OutOfStart(s) ==> OutOfStart(Apply(s, Advance(c, spawned)))
  {
    AdvanceEntersNothing(s, c, spawned);
    hide Apply, InShutdown, InStart, PcOf;
  }

  lemma Begun(s: State, c: nat, call: Call)
    ensures OutOfShutdown(s) && call != ShutdownAndWait ==> OutOfShutdown(Apply(s, Begin(c, call)))
    ensures OutOfStart(s) && call != Start ==> OutOfStart(Apply(s, Begin(c, call)))
  {
    var t := Apply(s, Begin(c, call));
    forall d: nat
      ensures PcOf(t, d) == PcOf(s, d) || PcOf(t, d) == EntryOf(call)
    {
    }
  }

  lemma {:induction false} NoShutdownBegun(steps: seq<Step>)
    requires forall i | 0 <= i < |steps| :: steps[i].Begin? ==> steps[i].call != ShutdownAndWait
    ensures OutOfShutdown(Exec(steps))
  {
    if steps != [] {
      var before, step := steps[..|steps| - 1], steps[|steps| - 1];
      NoShutdownBegun(before);
      hide Apply, OutOfShutdown;
      match step
      case Begin(c, call) => Begun(Exec(before), c, call);
      case Advance(c, spawned) => Advanced(Exec(before), c, spawned);
      case Thread(run, event) => ThreadsMoveNobody(Exec(before), run, event);
    } else {
      assert OutOfShutdown(INITIAL);
    }
  }

  lemma ThreadsMoveNobody(s: State, run: nat, event: ThreadEvent)
    ensures OutOfShutdown(s) ==> OutOfShutdown(Apply(s, Thread(run, event)))
  {
    assert forall d: nat :: PcOf(Apply(s, Thread(run, event)), d) == PcOf(s, d);
  }

  /** Start and stop calls alone, however many callers make them, can never do a harmful reset. */
  lemma StartsAndStopsAreGuarded(steps: seq<Step>)
    requires forall i | 0 <= i < |steps| :: steps[i].Begin? ==> steps[i].call != ShutdownAndWait
    ensures Guarded(INITIAL, steps)
  {
    hide After;
    forall k | 0 <= k < |steps|
      ensures !HarmfulReset(After(INITIAL, steps[..k]), steps[k])
    {
      NoShutdownBegun(steps[..k]);
      assert InShutdown(WaitReset);
    }
  }

  lemma CallAndAdvance(steps: seq<Step>, c: nat, call: Call) returns (longer: seq<Step>)
    requires ShutdownsApart(steps)
    requires (OutOfShutdown(Exec(steps)) && call == Start) || (OutOfStart(Exec(steps)) && call == ShutdownAndWait)
    ensures ShutdownsApart(longer) && Exec(longer) == CalledAndAdvanced(Exec(steps), c, call)
    ensures OutOfShutdown(Exec(steps)) && call == Start ==> OutOfShutdown(Exec(longer))
    ensures OutOfStart(Exec(steps)) && call == ShutdownAndWait ==> OutOfStart(Exec(longer))
  {
    hide Exec, ShutdownsApart, Apply, OutOfShutdown, OutOfStart;
    Begun(Exec(steps), c, call);
    OneMore(steps, Begin(c, call));
    longer := steps + [Begin(c, call)];
    longer := AdvanceOne(longer, c);
    longer := AdvanceOne(longer, c);
    longer := AdvanceOne(longer, c);
  }

  lemma AdvanceOne(steps: seq<Step>, c: nat) returns (longer: seq<Step>)
    requires ShutdownsApart(steps) && (OutOfShutdown(Exec(steps)) || OutOfStart(Exec(steps)))
    ensures ShutdownsApart(longer) && Exec(longer) == Apply(Exec(steps), Advance(c, true))
    ensures OutOfShutdown(Exec(steps)) ==> OutOfShutdown(Exec(longer))
    ensures OutOfStart(Exec(steps)) ==> OutOfStart(Exec(longer))
  {
    hide Exec, ShutdownsApart, Apply, OutOfShutdown, OutOfStart;
    Advanced(Exec(steps), c, true);
    OneMore(steps, Advance(c, true));
    longer := steps + [Advance(c, true)];
  }

  lemma ThreadOne(steps: seq<Step>, run: nat, event: ThreadEvent) returns (longer: seq<Step>)
    requires ShutdownsApart(steps) && OutOfShutdown(Exec(steps))
    ensures ShutdownsApart(longer) && Exec(longer) == Apply(Exec(steps), Thread(run, event))
    ensures OutOfShutdown(Exec(longer))
  {
    hide Exec, ShutdownsApart, Apply, OutOfShutdown;
    ThreadsMoveNobody(Exec(steps), run, event);
    OneMore(steps, Thread(run, event));
    longer := steps + [Thread(run, event)];
  }

  /** Run 0 is over before its start stores the handle, and run 1 has been started and stored meanwhile. */
  const FIRST_OVER := State(Shared(false, None, None), map[0 := Gone(false)], map[0 := StartTrack(0)], 1, [], {0})
  const CROSSED :=
    State(Shared(true, Some(1), Some(0)), map[0 := Gone(false), 1 := Live], map[0 := Idle, 1 := Idle], 2, [], {0})

  /** A shutdown that tells run 1 and joins run 0, before and after it resets the flag. */
  const WRONG_JOIN := State(Shared(true, None, None), map[0 := Gone(false), 1 := Live],
                            map[0 := Idle, 1 := Idle, 2 := WaitJoin(0)], 2, [1], {0, 1})
  const ALL_RETURNED := State(Shared(false, None, None), map[0 := Gone(false), 1 := Live],
                              map[0 := Idle, 1 := Idle, 2 := Idle], 2, [1], {0, 1})

  lemma FirstRunEnds()
    ensures Apply(Apply(Apply(MID_START, Thread(0, Finish)), Thread(0, Cleanup)), Thread(0, Exit)) == FIRST_OVER
  {
    var s := Apply(MID_START, Thread(0, Finish));
    assert s == MID_START.(threads := map[0 := Ended]);
    assert Apply(s, Thread(0, Cleanup)) == FIRST_OVER.(threads := map[0 := Cleaned]);
  }

  lemma HandlesCross()
    ensures Apply(Apply(CalledAndAdvanced(FIRST_OVER, 1, Start), Advance(1, true)), Advance(0, true)) == CROSSED
  {
    var s := Apply(Apply(FIRST_OVER, Begin(1, Start)), Advance(1, true));
    assert s == FIRST_OVER.(callers := map[0 := StartTrack(0), 1 := StartClaim]);
    var t := Apply(Apply(s, Advance(1, true)), Advance(1, true));
    assert t == State(Shared(true, Some(1), None), map[0 := Gone(false), 1 := Live],
                      map[0 := StartTrack(0), 1 := StartTrack(1)], 2, [], {0});
    assert Apply(t, Advance(1, true)) == t.(shared := Shared(true, Some(1), Some(1)),
                                            callers := map[0 := StartTrack(0), 1 := Idle]);
  }

  lemma ShutdownTakesWrongHandle()
    ensures CalledAndAdvanced(CROSSED, 2, ShutdownAndWait) == WRONG_JOIN
  {
    var s := Apply(Apply(CROSSED, Begin(2, ShutdownAndWait)), Advance(2, true));
    assert s == CROSSED.(shared := Shared(true, None, Some(0)),
                         callers := map[0 := Idle, 1 := Idle, 2 := StopSend(Some(1), true)]);
    var t := Apply(s, Advance(2, true));
    assert t == s.(callers := map[0 := Idle, 1 := Idle, 2 := WaitTake], signalled := [1], told := {0, 1});
  }

  lemma ShutdownJoinsWrongRun()
    ensures Apply(Apply(WRONG_JOIN, Advance(2, true)), Advance(2, true)) == ALL_RETURNED
  {
    assert Apply(WRONG_JOIN, Advance(2, true)) == WRONG_JOIN.(callers := map[0 := Idle, 1 := Idle, 2 := WaitReset]);
  }

  lemma ThirdStart()
    ensures var t := CalledAndAdvanced(ALL_RETURNED, 3, Start); BeforeCleanup(t, 1) && BeforeCleanup(t, 2)
  {
    var s := Apply(Apply(ALL_RETURNED, Begin(3, Start)), Advance(3, true));
    assert s == ALL_RETURNED.(callers := map[0 := Idle, 1 := Idle, 2 := Idle, 3 := StartClaim]);
    assert PcOf(Apply(s, Advance(3, true)), 3) == StartSpawn(2);
  }

  lemma ReachCrossed() returns (steps: seq<Step>)
    ensures ShutdownsApart(steps) && Exec(steps) == CROSSED
  {
    SpawnStage();
    FirstRunEnds();
    HandlesCross();
    assert ShutdownsApart([]) && OutOfShutdown(Exec([])) && Exec([]) == INITIAL;
    hide Apply, Exec, CalledAndAdvanced, ShutdownsApart, OutOfShutdown, OutOfStart;
    steps := CallAndAdvance([], 0, Start);
    steps := ThreadOne(steps, 0, Finish);
    steps := ThreadOne(steps, 0, Cleanup);
    steps := ThreadOne(steps, 0, Exit);
    steps := CallAndAdvance(steps, 1, Start);
    steps := AdvanceOne(steps, 1);
    steps := AdvanceOne(steps, 0);
  }

  /** Keeping shutdowns away from starts is not enough: two starts that overlap each other can leave
      the handle of the wrong run behind; a later shutdown_and_wait then returns while the other run is
      serving, and the next start puts a second one beside it. */
  lemma OverlappingStartsBreakExclusion() returns (steps: seq<Step>)
    ensures ShutdownsApart(steps) && BeforeCleanup(Exec(steps), 1) && BeforeCleanup(Exec(steps), 2)
  {
    ShutdownTakesWrongHandle();
    ShutdownJoinsWrongRun();
    ThirdStart();
    assert OutOfStart(CROSSED) && OutOfShutdown(ALL_RETURNED);
    hide Apply, Exec, CalledAndAdvanced, ShutdownsApart, OutOfShutdown, OutOfStart;
    steps := ReachCrossed();
    steps := CallAndAdvance(steps, 2, ShutdownAndWait);
    steps := AdvanceOne(steps, 2);
    steps := AdvanceOne(steps, 2);
    steps := CallAndAdvance(steps, 3, Start);
  }
}
