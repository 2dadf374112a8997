/** Overlapping requests of one player: exactly when every schedule of them leaves the cached record
    and the row of the players table equal, and two runs from the start that leave them different. */
module Overlap {
  import opened Wrappers
  import opened Bytes
  import opened Game
  import opened Runtime
  import opened RuntimeLaws

  // ---- Requests in flight ------------------------------------------------------------------

  /** The request has not been handled under the lock yet. */
  predicate Waiting(pc: Pc) {
    pc.Ensure? || pc.Load? || pc.SaveDefault? || pc.Insert? || pc.Mutate?
  }

  predicate WaitsOn(s: State, c: nat, u: u32) {
    c in s.conns && Waiting(s.conns[c].pc) && s.conns[c].pc.uid == u
  }

  function OpOf(s: State, c: nat): Op
    requires c in s.conns && Waiting(s.conns[c].pc)
  {
    s.conns[c].pc.op
  }

  /** The record the next handler starts from. */
  function Record(s: State, u: u32): Player {
    if u in s.cache then s.cache[u].info
    else if HasReadable(s.store, u) then s.store[u].data.info
    else DEFAULT_PLAYER
  }

  predicate PlaceOk(s: State, u: u32, pc: Pc) {
    match pc
    case SaveDefault(_, _, _) => Record(s, u) == DEFAULT_PLAYER
    case Insert(_, _, _, info) => HasReadable(s.store, u) && (u !in s.cache ==> info == Record(s, u))
    case Mutate(_, _) => u in s.cache
    case _ => true
  }

  /** Any number of connections work on `u`, none of which has been handled, and a cached record is
      settled in the table. */
  ghost predicate Untouched(s: State, u: u32) {
    && (forall c: nat :: WorksOn(s, c, u) ==> WaitsOn(s, c, u) && PlaceOk(s, u, s.conns[c].pc))
    && (u in s.cache ==> !s.cache[u].dirty && Stores(s, u, s.cache[u].info))
  }

  /** The connection can still write the default record: it has found, or may yet find, no readable row. */
  predicate MayCreate(s: State, c: nat, u: u32) {
    && WaitsOn(s, c, u)
    && (s.conns[c].pc.SaveDefault? || (!HasReadable(s.store, u) && (s.conns[c].pc.Load? || s.conns[c].pc.Ensure?)))
  }

  /** The first request changes a new player, and the late one would not save that change again. */
  predicate LeavesDefault(w: World, u: u32, first: Op, late: Op) {
    var r := Handle(w.cat, u, DEFAULT_PLAYER, first);
    r.player != DEFAULT_PLAYER && !Handle(w.cat, u, r.player, late).dirty
  }

  /** Two requests that must not overlap. */
  predicate Clash(w: World, s: State, u: u32, c: nat, d: nat) {
    && c != d && WaitsOn(s, c, u) && WaitsOn(s, d, u)
    && (|| BothTakeEffect(w, u, Record(s, u), OpOf(s, c), OpOf(s, d))
        || (MayCreate(s, d, u) && LeavesDefault(w, u, OpOf(s, c), OpOf(s, d))))
  }

  ghost predicate Harmless(w: World, s: State, u: u32) {
    forall c: nat, d: nat :: !Clash(w, s, u, c, d)
  }

  // ---- Schedules ---------------------------------------------------------------------------

  /** Any step of anyone, except that no further request on `u` begins and none is cut off. */
  ghost predicate KeepsTo(w: World, s: State, u: u32, step: Step) {
    && (forall c: nat :: WorksOn(Apply(w, s, step), c, u) ==> WorksOn(s, c, u))
    && !(step.Fail? && WorksOn(s, step.conn, u))
  }

  ghost predicate Within(w: World, s: State, u: u32, steps: seq<Step>) {
    forall k | 0 <= k < |steps| :: KeepsTo(w, ApplyAll(w, s, steps[..k]), u, steps[k])
  }

  ghost predicate Leads(w: World, s: State, u: u32, t: State) {
    exists steps :: Within(w, s, u, steps) && ApplyAll(w, s, steps) == t
  }

  ghost predicate AtRest(s: State, u: u32) {
    forall c: nat :: !WorksOn(s, c, u)
  }

  predicate Agrees(s: State, u: u32) {
    u in s.cache ==> Stores(s, u, s.cache[u].info)
  }

  lemma LeadsNowhere(w: World, s: State, u: u32)
    ensures Leads(w, s, u, s)
  {
    assert Within(w, s, u, []) && ApplyAll(w, s, []) == s;
  }

  lemma LeadsOn(w: World, s0: State, s: State, u: u32, step: Step)
    requires Leads(w, s0, u, s) && KeepsTo(w, s, u, step)
    ensures Leads(w, s0, u, Apply(w, s, step))
  {
    hide KeepsTo, Apply;
    var steps :| Within(w, s0, u, steps) && ApplyAll(w, s0, steps) == s;
    var longer := steps + [step];
    assert longer[..|steps|] == steps;
    assert ApplyAll(w, s0, longer) == Apply(w, s, step);
    forall k | 0 <= k < |longer|
      ensures KeepsTo(w, ApplyAll(w, s0, longer[..k]), u, longer[k])
    {
      assert k < |steps| ==> longer[..k] == steps[..k];
    }
  }

  lemma AdvanceMovesOne(w: World, s: State, c: nat)
    requires c in s.conns
    ensures var t := Proceed(w, s, c);
            && c in t.conns && t.conns == s.conns[c := t.conns[c]]
            && (Busy(s.conns[c].pc).Some? ==> Busy(t.conns[c].pc) in {None, Busy(s.conns[c].pc)})
  {
    hide Handle, HasReadable, Saved, Banned;
    match s.conns[c].pc
    case CheckBan(_, _, _, _) =>
    case Mutate(_, _) =>
    case _ =>
  }

  /** An advance by a connection that already works on `u` is always allowed. */
  lemma AdvanceLeadsOn(w: World, s0: State, s: State, u: u32, c: nat)
    requires Leads(w, s0, u, s) && WorksOn(s, c, u)
    ensures Leads(w, s0, u, Apply(w, s, Advance(c)))
  {
    AdvanceMovesOne(w, s, c);
    hide Apply, Leads;
    assert KeepsTo(w, s, u, Advance(c));
    hide KeepsTo;
    LeadsOn(w, s0, s, u, Advance(c));
  }

  // ---- Harmless overlap stays harmless -----------------------------------------------------

  /** For `u` the two states look the same. */
  ghost predicate SameFor(s: State, t: State, u: u32) {
    && (forall c: nat :: WorksOn(s, c, u) <==> WorksOn(t, c, u))
    && (forall c: nat :: WorksOn(s, c, u) ==> c in t.conns && t.conns[c].pc == s.conns[c].pc)
    && (u in s.cache <==> u in t.cache) && (u in s.cache ==> t.cache[u] == s.cache[u])
    && (u in s.store <==> u in t.store) && (u in s.store ==> t.store[u].data == s.store[u].data)
  }

  lemma AdvanceLeavesOthers(w: World, s: State, u: u32, c: nat)
    requires c in s.conns && !WorksOn(s, c, u)
    ensures var t := Apply(w, s, Advance(c));
            && (u in s.cache <==> u in t.cache) && (u in s.cache ==> t.cache[u] == s.cache[u])
            && (u in s.store <==> u in t.store) && (u in s.store ==> t.store[u] == s.store[u])
  {
    hide Handle, HasReadable, Banned;
  }

  lemma AdvanceLeavesSame(w: World, s: State, u: u32, c: nat)
    requires KeepsTo(w, s, u, Advance(c)) && !WorksOn(s, c, u)
    ensures SameFor(s, Apply(w, s, Advance(c)), u)
  {
    if c in s.conns {
      AdvanceMovesOne(w, s, c);
      AdvanceLeavesOthers(w, s, u, c);
      hide Proceed;
    }
  }

  lemma ReceiptLeavesSame(w: World, s: State, u: u32, c: nat, p: Packet)
    requires KeepsTo(w, s, u, Receive(c, p))
    ensures SameFor(s, Apply(w, s, Receive(c, p)), u)
  {
    if c in s.conns && s.conns[c].pc == Idle {
      var t := Take(w, s, c, p);
      assert c in t.conns && t.conns == s.conns[c := t.conns[c]] && SameTables(s, t);
      hide Take;
    }
  }

  lemma OthersLeaveSame(w: World, s: State, u: u32, step: Step)
    requires KeepsTo(w, s, u, step) && !(step.Advance? && WorksOn(s, step.conn, u))
    ensures SameFor(s, Apply(w, s, step), u)
  {
    match step
    case Advance(c) =>
      hide KeepsTo, SameFor, Apply;
      AdvanceLeavesSame(w, s, u, c);
    case Receive(c, p) =>
      hide KeepsTo, SameFor, Apply;
      ReceiptLeavesSame(w, s, u, c, p);
    case _ =>
      hide Proceed, Take;
  }

  lemma WaitingWorks(s: State, c: nat, u: u32)
    ensures WaitsOn(s, c, u) ==> WorksOn(s, c, u)
    ensures WorksOn(s, c, u) && !WaitsOn(s, c, u) ==> Saving(s, c, u)
  {
  }

  lemma SameKeepsHarmless(w: World, s: State, t: State, u: u32)
    requires SameFor(s, t, u) && Untouched(s, u) && Harmless(w, s, u)
    ensures Untouched(t, u) && Harmless(w, t, u)
  {
    hide BothTakeEffect, LeavesDefault;
    assert Record(t, u) == Record(s, u);
    forall c: nat, d: nat
      ensures !Clash(w, t, u, c, d)
    {
      WaitingWorks(t, c, u);
      WaitingWorks(t, d, u);
      assert !Clash(w, s, u, c, d);
    }
  }

  function Rank(pc: Pc): nat {
    match pc
    case Ensure(_, _, n) => 4 * n + 5
    case Load(_, _, n) => 4 * n + 4
    case SaveDefault(_, _, n) => 4 * n + 3
    case Insert(_, _, n, _) => 4 * n + 2
    case Mutate(_, _) => 1
    case _ => 0
  }

  lemma ApproachStep(w: World, s: State, u: u32, c: nat)
    requires WaitsOn(s, c, u) && PlaceOk(s, u, s.conns[c].pc) && !s.conns[c].pc.Mutate?
    requires u in s.cache ==> !s.cache[u].dirty && Stores(s, u, s.cache[u].info)
    ensures var t := Apply(w, s, Advance(c));
            && Record(t, u) == Record(s, u) && WaitsOn(t, c, u) && OpOf(t, c) == OpOf(s, c)
            && PlaceOk(t, u, t.conns[c].pc) && Rank(t.conns[c].pc) < Rank(s.conns[c].pc)
            && (HasReadable(s.store, u) ==> HasReadable(t.store, u)) && (u in s.cache ==> u in t.cache)
            && (u in t.cache ==> !t.cache[u].dirty && Stores(t, u, t.cache[u].info))
            && (MayCreate(t, c, u) ==> MayCreate(s, c, u))
            && t.conns == s.conns[c := s.conns[c].(pc := t.conns[c].pc)]
  {
    hide Handle;
  }

  /** On its way to the lock a request changes neither the record nor what the others may do. */
  lemma ApproachKeepsUntouched(w: World, s: State, u: u32, c: nat)
    requires Untouched(s, u) && WaitsOn(s, c, u) && !s.conns[c].pc.Mutate?
    ensures var t := Apply(w, s, Advance(c));
            && Untouched(t, u) && Record(t, u) == Record(s, u) && WaitsOn(t, c, u) && OpOf(t, c) == OpOf(s, c)
            && t.conns == s.conns[c := s.conns[c].(pc := t.conns[c].pc)]
            && Rank(t.conns[c].pc) < Rank(s.conns[c].pc)
            && (forall d: nat :: MayCreate(t, d, u) ==> MayCreate(s, d, u))
  {
    var t := Apply(w, s, Advance(c));
    assert WorksOn(s, c, u);
    ApproachStep(w, s, u, c);
    hide Apply, Record;
    forall d: nat | WorksOn(t, d, u)
      ensures WaitsOn(t, d, u) && PlaceOk(t, u, t.conns[d].pc)
    {
      assert d != c ==> t.conns[d] == s.conns[d] && WorksOn(s, d, u);
    }
    forall d: nat | MayCreate(t, d, u)
      ensures MayCreate(s, d, u)
    {
      assert d != c ==> t.conns[d] == s.conns[d];
    }
  }

  lemma ApproachKeepsHarmless(w: World, s: State, u: u32, c: nat)
    requires Untouched(s, u) && Harmless(w, s, u) && WaitsOn(s, c, u) && !s.conns[c].pc.Mutate?
    ensures Untouched(Apply(w, s, Advance(c)), u) && Harmless(w, Apply(w, s, Advance(c)), u)
  {
    ApproachKeepsUntouched(w, s, u, c);
    var t := Apply(w, s, Advance(c));
    hide Apply, Untouched, BothTakeEffect, LeavesDefault, MayCreate, Record;
    forall a: nat, b: nat
      ensures !Clash(w, t, u, a, b)
    {
      assert !Clash(w, s, u, a, b);
    }
  }

  /** The record of `u` no longer changes: what is being saved is the record, and no waiting request
      would change it. */
  ghost predicate Steady(w: World, s: State, u: u32) {
    && u in s.cache && !s.cache[u].dirty
    && forall c: nat :: WorksOn(s, c, u) ==>
         if s.conns[c].pc.Save? then s.conns[c].pc.info == s.cache[u].info
         else Handle(w.cat, u, s.cache[u].info, s.conns[c].pc.op).player == s.cache[u].info
  }

  /** The connection will still save the record. */
  predicate Owes(w: World, s: State, u: u32, c: nat) {
    && u in s.cache && WorksOn(s, c, u)
    && (s.conns[c].pc.Save? || Handle(w.cat, u, s.cache[u].info, s.conns[c].pc.op).dirty)
  }

  /** Steady, and whoever might write the default record will save the right one afterwards. */
  ghost predicate Settling(w: World, s: State, u: u32) {
    && Steady(w, s, u) && HasReadable(s.store, u)
    && (forall c: nat :: WorksOn(s, c, u) && s.conns[c].pc.SaveDefault? && s.cache[u].info != DEFAULT_PLAYER
                         ==> Owes(w, s, u, c))
    && (Stores(s, u, s.cache[u].info) || exists c: nat :: Owes(w, s, u, c))
  }

  lemma SameKeepsSettling(w: World, s: State, t: State, u: u32)
    requires SameFor(s, t, u) && Settling(w, s, u)
    ensures Settling(w, t, u)
  {
    hide Handle;
    assert forall c: nat :: Owes(w, s, u, c) ==> Owes(w, t, u, c);
    forall c: nat | WorksOn(t, c, u) && t.conns[c].pc.SaveDefault? && t.cache[u].info != DEFAULT_PLAYER
      ensures Owes(w, t, u, c)
    {
      assert WorksOn(s, c, u);
    }
  }

  lemma AdvanceKeepsSteady(w: World, s: State, u: u32, c: nat)
    requires Steady(w, s, u) && WorksOn(s, c, u)
    ensures var t := Apply(w, s, Advance(c));
            Steady(w, t, u) && t.cache[u] == s.cache[u] && t.conns == s.conns[c := s.conns[c].(pc := t.conns[c].pc)]
  {
    var t := Apply(w, s, Advance(c));
    if s.conns[c].pc.Mutate? {
      DirtyFlagIsSound(w.cat, u, s.cache[u].info, s.conns[c].pc.op);
    }
    hide Handle;
    forall d: nat | WorksOn(t, d, u)
      ensures if t.conns[d].pc.Save? then t.conns[d].pc.info == t.cache[u].info
              else Handle(w.cat, u, t.cache[u].info, t.conns[d].pc.op).player == t.cache[u].info
    {
      assert d != c ==> t.conns[d] == s.conns[d] && WorksOn(s, d, u);
    }
  }

  lemma AdvanceKeepsSettling(w: World, s: State, u: u32, c: nat)
    requires Settling(w, s, u) && WorksOn(s, c, u)
    ensures Settling(w, Apply(w, s, Advance(c)), u)
  {
    hide Handle, Steady;
    var t := Apply(w, s, Advance(c));
    AdvanceKeepsSteady(w, s, u, c);
    SteadyFacts(w, s, u, c);
    assert forall d: nat :: d != c && Owes(w, s, u, d) ==> Owes(w, t, u, d);
    forall d: nat | WorksOn(t, d, u) && t.conns[d].pc.SaveDefault? && t.cache[u].info != DEFAULT_PLAYER
      ensures Owes(w, t, u, d)
    {
      assert d != c ==> WorksOn(s, d, u);
    }
    if s.conns[c].pc.SaveDefault? && s.cache[u].info != DEFAULT_PLAYER {
      assert Owes(w, s, u, c) && Owes(w, t, u, c);
    } else if !s.conns[c].pc.Save? && Owes(w, s, u, c) {
      assert Owes(w, t, u, c);
    }
  }

  lemma SteadyFacts(w: World, s: State, u: u32, c: nat)
    requires Steady(w, s, u) && WorksOn(s, c, u)
    ensures u in s.cache && !s.cache[u].dirty
    ensures s.conns[c].pc.Save? ==> s.conns[c].pc.info == s.cache[u].info
  {
  }

  /** The first handler that asks for a save settles the record, unless it clashes with another. */
  lemma FirstSaveSettles(w: World, s: State, u: u32, c: nat)
    requires Untouched(s, u) && Harmless(w, s, u) && WaitsOn(s, c, u) && s.conns[c].pc.Mutate?
    requires u in s.cache && Handle(w.cat, u, s.cache[u].info, OpOf(s, c)).dirty
    ensures Settling(w, Apply(w, s, Advance(c)), u)
  {
    var t, info := Apply(w, s, Advance(c)), s.cache[u].info;
    var changed := Handle(w.cat, u, info, OpOf(s, c)).player;
    forall d: nat | WorksOn(t, d, u)
      ensures if t.conns[d].pc.Save? then t.conns[d].pc.info == changed
              else Handle(w.cat, u, changed, t.conns[d].pc.op).player == changed
      ensures t.conns[d].pc.SaveDefault? && changed != DEFAULT_PLAYER ==> Owes(w, t, u, d)
    {
      if d != c {
        assert WorksOn(s, d, u) && !Clash(w, s, u, c, d) && PlaceOk(s, u, s.conns[d].pc);
        DirtyFlagIsSound(w.cat, u, changed, OpOf(s, d));
      }
    }
    assert Owes(w, t, u, c);
  }

  lemma QuietHandlingKeepsHarmless(w: World, s: State, u: u32, c: nat)
    requires Untouched(s, u) && Harmless(w, s, u) && WaitsOn(s, c, u) && s.conns[c].pc.Mutate?
    requires u in s.cache && !Handle(w.cat, u, s.cache[u].info, OpOf(s, c)).dirty
    ensures Untouched(Apply(w, s, Advance(c)), u) && Harmless(w, Apply(w, s, Advance(c)), u)
  {
    var t := Apply(w, s, Advance(c));
    DirtyFlagIsSound(w.cat, u, s.cache[u].info, OpOf(s, c));
    hide Handle, BothTakeEffect, LeavesDefault;
    forall d: nat | WorksOn(t, d, u)
      ensures d != c && WaitsOn(t, d, u) && PlaceOk(t, u, t.conns[d].pc)
    {
      assert d != c && t.conns[d] == s.conns[d] && WorksOn(s, d, u);
    }
    forall a: nat, b: nat
      ensures !Clash(w, t, u, a, b)
    {
      WaitingWorks(t, a, u);
      WaitingWorks(t, b, u);
      assert !Clash(w, s, u, a, b);
    }
  }

  ghost predicate Safe(w: World, s: State, u: u32) {
    (Untouched(s, u) && Harmless(w, s, u)) || Settling(w, s, u)
  }

  lemma StepKeepsSafe(w: World, s: State, u: u32, step: Step)
    requires Safe(w, s, u) && KeepsTo(w, s, u, step)
    ensures Safe(w, Apply(w, s, step), u)
  {
    var t := Apply(w, s, step);
    hide Apply, KeepsTo, Handle, Settling, Harmless;
    if !(step.Advance? && WorksOn(s, step.conn, u)) {
      OthersLeaveSame(w, s, u, step);
      if Settling(w, s, u) {
        SameKeepsSettling(w, s, t, u);
      } else {
        SameKeepsHarmless(w, s, t, u);
      }
    } else if Settling(w, s, u) {
      AdvanceKeepsSettling(w, s, u, step.conn);
    } else if !s.conns[step.conn].pc.Mutate? {
      ApproachKeepsHarmless(w, s, u, step.conn);
    } else if Handle(w.cat, u, s.cache[u].info, OpOf(s, step.conn)).dirty {
      FirstSaveSettles(w, s, u, step.conn);
    } else {
      QuietHandlingKeepsHarmless(w, s, u, step.conn);
    }
  }

  lemma {:induction false} ScheduleKeepsSafe(w: World, s: State, u: u32, steps: seq<Step>)
    requires Safe(w, s, u) && Within(w, s, u, steps)
    ensures Safe(w, ApplyAll(w, s, steps), u)
    decreases |steps|
  {
    hide Safe, Apply, KeepsTo;
    if steps != [] {
      var before := steps[..|steps| - 1];
      forall k | 0 <= k < |before|
        ensures KeepsTo(w, ApplyAll(w, s, before[..k]), u, before[k])
      {
        assert before[..k] == steps[..k];
      }
      ScheduleKeepsSafe(w, s, u, before);
      StepKeepsSafe(w, ApplyAll(w, s, before), u, steps[|steps| - 1]);
    }
  }

  lemma SafeAtRestAgrees(w: World, s: State, u: u32)
    requires Safe(w, s, u) && AtRest(s, u)
    ensures Agrees(s, u)
  {
  }

  // ---- Every clash spoils some schedule ----------------------------------------------------

  lemma {:induction false} ReachLock(w: World, s0: State, s: State, u: u32, c: nat) returns (t: State)
    requires Leads(w, s0, u, s) && Untouched(s, u) && WaitsOn(s, c, u)
    ensures Leads(w, s0, u, t) && Untouched(t, u) && Record(t, u) == Record(s, u)
    ensures t.conns == s.conns[c := s.conns[c].(pc := Mutate(u, OpOf(s, c)))]
    decreases Rank(s.conns[c].pc)
  {
    if s.conns[c].pc.Mutate? {
      t := s;
    } else {
      WaitingWorks(s, c, u);
      AdvanceLeadsOn(w, s0, s, u, c);
      ApproachKeepsUntouched(w, s, u, c);
      hide Apply, Untouched, Leads, Record, Rank;
      t := ReachLock(w, s0, Apply(w, s, Advance(c)), u, c);
    }
  }

  lemma {:induction false} ReachDefaultWrite(w: World, s0: State, s: State, u: u32, c: nat) returns (t: State)
    requires Leads(w, s0, u, s) && Untouched(s, u) && MayCreate(s, c, u)
    ensures Leads(w, s0, u, t) && Untouched(t, u) && Record(t, u) == Record(s, u) == DEFAULT_PLAYER
    ensures WaitsOn(t, c, u) && OpOf(t, c) == OpOf(s, c) && t.conns[c].pc.SaveDefault?
    ensures t.conns == s.conns[c := t.conns[c]]
    decreases Rank(s.conns[c].pc)
  {
    WaitingWorks(s, c, u);
    if s.conns[c].pc.SaveDefault? {
      t := s;
    } else {
      AdvanceLeadsOn(w, s0, s, u, c);
      ApproachKeepsUntouched(w, s, u, c);
      var next := Apply(w, s, Advance(c));
      assert MayCreate(next, c, u);
      hide Apply, Untouched, Leads, Record, Rank, MayCreate;
      t := ReachDefaultWrite(w, s0, next, u, c);
    }
  }

  /** What the last steps of a request on a loaded player change: its own place, the row, and the
      record; the row too is left alone by a request past loading that does not ask for a save. */
  lemma LastStep(w: World, s: State, u: u32, c: nat)
    requires u in s.cache && WorksOn(s, c, u)
    ensures var t := Apply(w, s, Advance(c));
            && u in t.cache && t.conns == s.conns[c := s.conns[c].(pc := t.conns[c].pc)]
            && (WorksOn(t, c, u) || t.conns[c].pc == Idle)
            && (WorksOn(t, c, u) ==> Rank(t.conns[c].pc) < Rank(s.conns[c].pc))
  {
    hide Handle;
  }

  lemma QuietStep(w: World, s: State, u: u32, c: nat)
    requires Steady(w, s, u) && PastLoading(w, s, u, c)
    ensures var t := Apply(w, s, Advance(c));
            && t.store == s.store && t.cache[u] == s.cache[u]
            && (WorksOn(t, c, u) ==> PastLoading(w, t, u, c))
  {
    AdvanceKeepsSteady(w, s, u, c);
    hide Handle;
  }

  /** Past loading, and not going to ask for a save. */
  predicate PastLoading(w: World, s: State, u: u32, c: nat) {
    && u in s.cache && WaitsOn(s, c, u) && WorksOn(s, c, u)
    && (s.conns[c].pc.Insert? || s.conns[c].pc.Ensure? || s.conns[c].pc.Mutate?)
    && !Handle(w.cat, u, s.cache[u].info, OpOf(s, c)).dirty
  }

  lemma {:induction false} Finish(w: World, s0: State, s: State, u: u32, c: nat) returns (t: State)
    requires Leads(w, s0, u, s) && u in s.cache && WorksOn(s, c, u)
    ensures Leads(w, s0, u, t) && u in t.cache && t.conns == s.conns[c := s.conns[c].(pc := Idle)]
    ensures Steady(w, s, u) ==> Steady(w, t, u) && t.cache[u] == s.cache[u]
    ensures Steady(w, s, u) && PastLoading(w, s, u, c) ==> t.store == s.store
    decreases Rank(s.conns[c].pc)
  {
    t := Apply(w, s, Advance(c));
    AdvanceLeadsOn(w, s0, s, u, c);
    LastStep(w, s, u, c);
    if Steady(w, s, u) {
      AdvanceKeepsSteady(w, s, u, c);
      if PastLoading(w, s, u, c) {
        QuietStep(w, s, u, c);
      }
    }
    if WorksOn(t, c, u) {
      hide Apply, Steady, Leads, Rank, PastLoading;
      t := Finish(w, s0, t, u, c);
    }
  }

  lemma {:induction false} FinishAll(w: World, s0: State, s: State, u: u32, cs: set<nat>) returns (t: State)
    requires Leads(w, s0, u, s) && u in s.cache
    ensures Leads(w, s0, u, t) && u in t.cache && t.conns.Keys == s.conns.Keys
    ensures forall c | c in s.conns ::
              t.conns[c] == if c in cs && WorksOn(s, c, u) then s.conns[c].(pc := Idle) else s.conns[c]
    ensures u in t.cache && (Steady(w, s, u) ==> Steady(w, t, u) && t.cache[u] == s.cache[u])
    decreases |cs|
  {
    if cs == {} {
      t := s;
    } else {
      var c :| c in cs;
      t := s;
      if WorksOn(s, c, u) {
        t := Finish(w, s0, s, u, c);
      }
      hide Steady, Leads;
      t := FinishAll(w, s0, t, u, cs - {c});
    }
  }

  function Workers(s: State, u: u32): set<nat> {
    set c | c in s.conns && WorksOn(s, c, u)
  }

  /** Locking: the record becomes the handler's, which is about to be saved. */
  lemma LockStep(w: World, s: State, u: u32, c: nat)
    requires WaitsOn(s, c, u) && s.conns[c].pc.Mutate? && u in s.cache
    requires Handle(w.cat, u, s.cache[u].info, OpOf(s, c)).dirty
    ensures var t, r := Apply(w, s, Advance(c)), Handle(w.cat, u, s.cache[u].info, OpOf(s, c));
            && u in t.cache && t.cache[u] == Session(r.player, false) && t.store == s.store
            && t.conns == s.conns[c := s.conns[c].(pc := Save(u, r.player, r.out))]
  {
    hide Handle;
  }

  lemma SaveStep(w: World, s: State, u: u32, c: nat)
    requires Saving(s, c, u)
    ensures var t := Apply(w, s, Advance(c));
            && Stores(t, u, s.conns[c].pc.info) && t.cache == s.cache
            && t.conns == s.conns[c := s.conns[c].(pc := Idle)]
  {
  }

  /** Two effective requests meet under the lock, one after the other, before either is saved. */
  lemma LockBoth(w: World, s: State, u: u32, c: nat, d: nat) returns (t: State)
    requires Untouched(s, u) && c != d && WaitsOn(s, c, u) && WaitsOn(s, d, u)
    requires BothTakeEffect(w, u, Record(s, u), OpOf(s, c), OpOf(s, d))
    ensures Leads(w, s, u, t) && u in t.cache && Saving(t, c, u) && Saving(t, d, u)
    ensures t.conns[c].pc.info != t.conns[d].pc.info
  {
    hide Leads, Handle, Apply, BothTakeEffect, Record, Rank;
    LeadsNowhere(w, s, u);
    var s1 := ReachLock(w, s, s, u, c);
    var s2 := ReachLock(w, s, s1, u, d);
    assert u in s2.cache by {
      assert WorksOn(s2, c, u) && PlaceOk(s2, u, s2.conns[c].pc);
    }
    assert BothTakeEffect(w, u, s2.cache[u].info, OpOf(s2, c), OpOf(s2, d)) by { CachedRecord(s2, u); }
    t := LockTwo(w, s, s2, u, c, d);
  }

  lemma CachedRecord(s: State, u: u32)
    requires u in s.cache
    ensures Record(s, u) == s.cache[u].info
  {
  }

  lemma LockTwo(w: World, s0: State, s: State, u: u32, c: nat, d: nat) returns (t: State)
    requires Leads(w, s0, u, s) && u in s.cache && c != d && WaitsOn(s, c, u) && WaitsOn(s, d, u)
    requires s.conns[c].pc.Mutate? && s.conns[d].pc.Mutate?
    requires BothTakeEffect(w, u, s.cache[u].info, OpOf(s, c), OpOf(s, d))
    ensures Leads(w, s0, u, t) && u in t.cache && Saving(t, c, u) && Saving(t, d, u)
    ensures t.conns[c].pc.info != t.conns[d].pc.info
  {
    hide Leads, Handle, Apply;
    AdvanceLeadsOn(w, s0, s, u, c);
    LockStep(w, s, u, c);
    var s1 := Apply(w, s, Advance(c));
    AdvanceLeadsOn(w, s0, s1, u, d);
    LockStep(w, s1, u, d);
    t := Apply(w, s1, Advance(d));
  }

  /** Then all others finish, and last of all that one of the two records is saved which the others
      have not come back to. */
  lemma EffectivePairSpoils(w: World, s: State, u: u32, c: nat, d: nat) returns (t: State)
    requires Untouched(s, u) && c != d && WaitsOn(s, c, u) && WaitsOn(s, d, u)
    requires BothTakeEffect(w, u, Record(s, u), OpOf(s, c), OpOf(s, d))
    ensures Leads(w, s, u, t) && AtRest(t, u) && !Agrees(t, u)
  {
    hide Leads, Untouched, Handle, BothTakeEffect, Record, AtRest, Agrees;
    var both := LockBoth(w, s, u, c, d);
    t := FinishAll(w, s, both, u, Workers(both, u) - {c, d});
    forall e: nat | WorksOn(t, e, u)
      ensures e == c || e == d
    {
      assert WorksOn(both, e, u) ==> e in Workers(both, u);
    }
    t := SaveBoth(w, s, t, u, c, d);
  }

  lemma SaveBoth(w: World, s0: State, s: State, u: u32, c: nat, d: nat) returns (t: State)
    requires Leads(w, s0, u, s) && u in s.cache && c != d && Saving(s, c, u) && Saving(s, d, u)
    requires forall e: nat :: WorksOn(s, e, u) ==> e == c || e == d
    requires s.conns[c].pc.info != s.conns[d].pc.info
    ensures Leads(w, s0, u, t) && AtRest(t, u) && !Agrees(t, u)
  {
    hide Leads, Handle;
    var first, last := c, d;
    if s.conns[d].pc.info == s.cache[u].info {
      first, last := d, c;
    }
    AdvanceLeadsOn(w, s0, s, u, first);
    SaveStep(w, s, u, first);
    var s1 := Apply(w, s, Advance(first));
    hide Apply;
    AdvanceLeadsOn(w, s0, s1, u, last);
    SaveStep(w, s1, u, last);
    t := Apply(w, s1, Advance(last));
    forall e: nat
      ensures !WorksOn(t, e, u)
    {
      assert e != c && e != d ==> !WorksOn(s, e, u);
    }
  }

  /** One request is held back before it writes the default, while another is handled. */
  lemma HoldDefault(w: World, s: State, u: u32, c: nat, d: nat) returns (t: State)
    requires Untouched(s, u) && c != d && WaitsOn(s, c, u) && MayCreate(s, d, u)
    requires LeavesDefault(w, u, OpOf(s, c), OpOf(s, d))
    requires forall a: nat :: a != c && WaitsOn(s, a, u) ==>
               !BothTakeEffect(w, u, Record(s, u), OpOf(s, c), OpOf(s, a))
    ensures Leads(w, s, u, t) && Steady(w, t, u) && u in t.cache && t.cache[u].info != DEFAULT_PLAYER
    ensures WaitsOn(t, d, u) && t.conns[d].pc.SaveDefault?
    ensures !Handle(w.cat, u, t.cache[u].info, OpOf(t, d)).dirty
  {
    LeadsNowhere(w, s, u);
    var s1 := ReachDefaultWrite(w, s, s, u, d);
    var s2 := ReachLock(w, s, s1, u, c);
    assert u in s2.cache by {
      assert WorksOn(s2, c, u) && PlaceOk(s2, u, s2.conns[c].pc);
    }
    CachedRecord(s2, u);
    hide Leads, Untouched, BothTakeEffect, Handle;
    forall a: nat | WaitsOn(s2, a, u) && a != c
      ensures !BothTakeEffect(w, u, DEFAULT_PLAYER, OpOf(s2, c), OpOf(s2, a))
    {
      assert WaitsOn(s, a, u) && OpOf(s2, a) == OpOf(s, a);
    }
    t := LockBesideDefault(w, s, s2, u, c, d);
  }

  lemma LockBesideDefault(w: World, s0: State, s: State, u: u32, c: nat, d: nat) returns (t: State)
    requires Leads(w, s0, u, s) && Untouched(s, u) && c != d && WaitsOn(s, c, u) && WaitsOn(s, d, u)
    requires s.conns[c].pc.Mutate? && s.conns[d].pc.SaveDefault? && u in s.cache && s.cache[u].info == DEFAULT_PLAYER
    requires LeavesDefault(w, u, OpOf(s, c), OpOf(s, d))
    requires forall a: nat :: WaitsOn(s, a, u) && a != c ==>
               !BothTakeEffect(w, u, DEFAULT_PLAYER, OpOf(s, c), OpOf(s, a))
    ensures Leads(w, s0, u, t) && Steady(w, t, u) && u in t.cache && t.cache[u].info != DEFAULT_PLAYER
    ensures WaitsOn(t, d, u) && t.conns[d].pc.SaveDefault?
    ensures !Handle(w.cat, u, t.cache[u].info, OpOf(t, d)).dirty
  {
    DirtyFlagIsSound(w.cat, u, DEFAULT_PLAYER, OpOf(s, c));
    hide Leads, Untouched, Apply, Handle, BothTakeEffect, Steady;
    AdvanceLeadsOn(w, s0, s, u, c);
    LockStep(w, s, u, c);
    LockedIsSteady(w, s, u, c);
    t := Apply(w, s, Advance(c));
  }

  /** A late default: its writer goes on only when all others are done. */
  lemma LateDefaultSpoils(w: World, s: State, u: u32, c: nat, d: nat) returns (t: State)
    requires Untouched(s, u) && c != d && WaitsOn(s, c, u) && MayCreate(s, d, u)
    requires LeavesDefault(w, u, OpOf(s, c), OpOf(s, d))
    requires forall a: nat :: a != c && WaitsOn(s, a, u) ==>
               !BothTakeEffect(w, u, Record(s, u), OpOf(s, c), OpOf(s, a))
    ensures Leads(w, s, u, t) && AtRest(t, u) && !Agrees(t, u)
  {
    hide Leads, Untouched, Handle, BothTakeEffect, LeavesDefault, MayCreate, Record, AtRest, Agrees, Steady;
    var held := HoldDefault(w, s, u, c, d);
    t := FinishAll(w, s, held, u, Workers(held, u) - {d});
    forall e: nat | WorksOn(t, e, u)
      ensures e == d
    {
      assert WorksOn(held, e, u) ==> e in Workers(held, u);
    }
    assert t.conns[d] == held.conns[d];
    t := WriteDefaultLast(w, s, t, u, d);
  }

  lemma LockedIsSteady(w: World, s2: State, u: u32, c: nat)
    requires Untouched(s2, u) && WaitsOn(s2, c, u) && s2.conns[c].pc.Mutate? && u in s2.cache
    requires Handle(w.cat, u, s2.cache[u].info, OpOf(s2, c)).dirty
    requires forall a: nat :: WaitsOn(s2, a, u) && a != c ==>
               !BothTakeEffect(w, u, s2.cache[u].info, OpOf(s2, c), OpOf(s2, a))
    ensures Steady(w, Apply(w, s2, Advance(c)), u)
  {
    var t := Apply(w, s2, Advance(c));
    LockStep(w, s2, u, c);
    hide Apply;
    forall a: nat | WorksOn(t, a, u) && a != c
      ensures !t.conns[a].pc.Save? && Handle(w.cat, u, t.cache[u].info, t.conns[a].pc.op).player == t.cache[u].info
    {
      assert WorksOn(s2, a, u) && t.conns[a] == s2.conns[a];
      DirtyFlagIsSound(w.cat, u, t.cache[u].info, OpOf(s2, a));
    }
  }

  lemma WriteDefaultLast(w: World, s0: State, s: State, u: u32, d: nat) returns (t: State)
    requires Leads(w, s0, u, s) && Steady(w, s, u) && s.cache[u].info != DEFAULT_PLAYER
    requires WaitsOn(s, d, u) && s.conns[d].pc.SaveDefault? && forall e: nat :: WorksOn(s, e, u) ==> e == d
    requires !Handle(w.cat, u, s.cache[u].info, OpOf(s, d)).dirty
    ensures Leads(w, s0, u, t) && AtRest(t, u) && !Agrees(t, u)
  {
    WaitingWorks(s, d, u);
    hide Leads, Handle;
    AdvanceLeadsOn(w, s0, s, u, d);
    AdvanceKeepsSteady(w, s, u, d);
    var s1 := Apply(w, s, Advance(d));
    assert Stores(s1, u, DEFAULT_PLAYER) && PastLoading(w, s1, u, d);
    hide Apply;
    t := Finish(w, s0, s1, u, d);
    forall e: nat
      ensures !WorksOn(t, e, u)
    {
      assert e != d ==> !WorksOn(s, e, u);
    }
  }

  /** For any number of overlapping requests of one player, at whatever places before the lock: every
      schedule that lets them all finish, whatever else goes on, ends with the row holding the cached
      record, if and only if no two of them clash. */
  lemma EveryScheduleAgreesIffHarmless(w: World, s: State, u: u32)
    requires Untouched(s, u)
    ensures (forall t | Leads(w, s, u, t) && AtRest(t, u) :: Agrees(t, u)) <==> Harmless(w, s, u)
  {
    hide Untouched, Safe, Within, AtRest, Agrees, BothTakeEffect, LeavesDefault, MayCreate;
    if Harmless(w, s, u) {
      hide Harmless;
      forall t | Leads(w, s, u, t) && AtRest(t, u)
        ensures Agrees(t, u)
      {
        var steps :| Within(w, s, u, steps) && ApplyAll(w, s, steps) == t;
        assert Safe(w, s, u) by { HarmlessIsSafe(w, s, u); }
        ScheduleKeepsSafe(w, s, u, steps);
        SafeAtRestAgrees(w, t, u);
      }
    } else {
      var t := ClashSpoils(w, s, u);
    }
  }

  lemma HarmlessIsSafe(w: World, s: State, u: u32)
    requires Untouched(s, u) && Harmless(w, s, u)
    ensures Safe(w, s, u)
  {
  }

  lemma ClashSpoils(w: World, s: State, u: u32) returns (t: State)
    requires Untouched(s, u) && !Harmless(w, s, u)
    ensures Leads(w, s, u, t) && AtRest(t, u) && !Agrees(t, u)
  {
    hide Untouched, Leads, AtRest, Agrees, BothTakeEffect, LeavesDefault, MayCreate;
    if a: nat, b: nat :| a != b && WaitsOn(s, a, u) && WaitsOn(s, b, u)
                         && BothTakeEffect(w, u, Record(s, u), OpOf(s, a), OpOf(s, b)) {
      t := EffectivePairSpoils(w, s, u, a, b);
    } else {
      var c: nat, d: nat :| Clash(w, s, u, c, d);
      t := LateDefaultSpoils(w, s, u, c, d);
    }
  }

  // ---- Whole runs --------------------------------------------------------------------------

  /** As long as no session of `u` exists, every state a run can reach is untouched for `u`. */
  lemma UnloadedIsUntouched(w: World, steps: seq<Step>, u: u32)
    requires u !in Exec(w, steps).cache
    ensures Untouched(Exec(w, steps), u)
  {
    hide Exec;
    var s := Exec(w, steps);
    ExecInv(w, steps);
    LoadFindsOrigin(w, s, u);
    forall c: nat | WorksOn(s, c, u)
      ensures WaitsOn(s, c, u) && PlaceOk(s, u, s.conns[c].pc)
    {
      assert PcOk(w, s, s.conns[c].pc);
    }
  }

  /** A run in which no request of `u` is cut off, and each one that begins finds, or makes with those
      in flight, a safe state. */
  ghost predicate Careful(w: World, u: u32, steps: seq<Step>) {
    forall k | 0 <= k < |steps| ::
      || KeepsTo(w, Exec(w, steps[..k]), u, steps[k])
      || Safe(w, Apply(w, Exec(w, steps[..k]), steps[k]), u)
  }

  lemma {:induction false} CarefulRunIsSafe(w: World, u: u32, steps: seq<Step>)
    requires Careful(w, u, steps)
    ensures Safe(w, Exec(w, steps), u)
    decreases |steps|
  {
    if steps == [] {
      assert Untouched(Start(w), u) && Harmless(w, Start(w), u);
    } else {
      hide Safe, Apply, KeepsTo;
      var before := steps[..|steps| - 1];
      forall k | 0 <= k < |before|
        ensures || KeepsTo(w, Exec(w, before[..k]), u, before[k])
                || Safe(w, Apply(w, Exec(w, before[..k]), before[k]), u)
      {
        assert before[..k] == steps[..k];
      }
      CarefulRunIsSafe(w, u, before);
      if KeepsTo(w, Exec(w, before), u, steps[|steps| - 1]) {
        StepKeepsSafe(w, Exec(w, before), u, steps[|steps| - 1]);
      }
    }
  }

  /** Overlap as such does no harm: if only harmless overlaps arise in a run, the row of `u` holds the
      cached record whenever no request of `u` is in flight. */
  lemma CarefulRunsAgree(w: World, u: u32, steps: seq<Step>)
    requires Careful(w, u, steps) && AtRest(Exec(w, steps), u)
    ensures Agrees(Exec(w, steps), u)
  {
    hide Exec, Careful;
    CarefulRunIsSafe(w, u, steps);
    SafeAtRestAgrees(w, Exec(w, steps), u);
  }

  // ---- Runs from the start that lose a change ----------------------------------------------

  ghost predicate Reachable(w: World, s: State) {
    exists steps :: Exec(w, steps) == s
  }

  lemma ReachableNext(w: World, s: State, step: Step)
    requires Reachable(w, s)
    ensures Reachable(w, Apply(w, s, step))
  {
    hide Apply;
    var steps :| Exec(w, steps) == s;
    assert (steps + [step])[..|steps|] == steps;
    assert Exec(w, steps + [step]) == Apply(w, s, step);
  }

  lemma {:induction false} ReachableAfter(w: World, s: State, steps: seq<Step>)
    requires Reachable(w, s)
    ensures Reachable(w, ApplyAll(w, s, steps))
  {
    hide Reachable, Apply;
    if steps != [] {
      ReachableAfter(w, s, steps[..|steps| - 1]);
      ReachableNext(w, ApplyAll(w, s, steps[..|steps| - 1]), steps[|steps| - 1]);
    }
  }

  lemma ReachableByLeading(w: World, s: State, u: u32, t: State)
    requires Reachable(w, s) && Leads(w, s, u, t)
    ensures Reachable(w, t)
  {
    hide Reachable;
    var steps :| Within(w, s, u, steps) && ApplyAll(w, s, steps) == t;
    ReachableAfter(w, s, steps);
  }

  function LoginOp(ticket: string): Op {
    Op(Login(ticket), 0, [], [])
  }

  /** A login with a good ticket, up to the point where the player is to be loaded. */
  lemma LogIn(w: World, s: State, c: nat, u: u32, ticket: string) returns (t: State)
    requires Reachable(w, s) && c in s.conns && s.conns[c] == Conn(None, Idle)
    requires u in s.accounts && !Banned(s.store, u)
    ensures Reachable(w, t) && t.conns == s.conns[c := Conn(Some(u), Ensure(u, LoginOp(ticket), 2))]
    ensures SameTables(s, t) && t.accounts == s.accounts
  {
    hide Reachable, Banned;
    var login := Receive(c, LoginPacket(u, ticket, w.hash(ticket), LoginOp(ticket)));
    ReachableNext(w, s, login);
    var s1 := Apply(w, s, login);
    ReachableNext(w, s1, Advance(c));
    var s2 := Apply(w, s1, Advance(c));
    ReachableNext(w, s2, Advance(c));
    t := Apply(w, s2, Advance(c));
  }

  /** Two connections log in to one account; both are about to load its player. */
  lemma TwoLogIn(w: World, u: u32, ticket: string) returns (t: State)
    requires !Banned(w.initial, u)
    ensures Reachable(w, t) && t.cache == map[] && t.store == w.initial
    ensures var conn := Conn(Some(u), Ensure(u, LoginOp(ticket), 2)); t.conns == map[0 := conn, 1 := conn]
  {
    assert Reachable(w, Start(w)) by { assert Exec(w, []) == Start(w); }
    hide Reachable, Banned, Exec;
    ReachableNext(w, Start(w), Register(u));
    var s1 := Apply(w, Start(w), Register(u));
    ReachableNext(w, s1, Open(0));
    var s2 := Apply(w, s1, Open(0));
    ReachableNext(w, s2, Open(1));
    t := LogIn(w, Apply(w, s2, Open(1)), 0, u, ticket);
    t := LogIn(w, t, 1, u, ticket);
  }

  /** For every account that is not banned, whatever the table holds: two connections with a good ticket,
      each finishing one story, can leave the row without the last of the two. */
  lemma LostUpdateIsReachable(w: World, u: u32, ticket: string, opC: Op, opD: Op) returns (t: State)
    requires !Banned(w.initial, u) && opC.request.Story? && opD.request.Story?
    ensures Reachable(w, t) && AtRest(t, u) && u in t.cache && !Stores(t, u, t.cache[u].info)
  {
    hide Reachable, Leads, Handle, Apply, Banned, ApplyAll;
    var s := TwoLogIn(w, u, ticket);
    LeadsNowhere(w, s, u);
    var s1 := FinishLoading(w, s, s, u, 0);
    var s2 := FinishLoading(w, s, s1, u, 1);
    ReachableByLeading(w, s, u, s2);
    StoriesTakeEffect(w, u, s2.cache[u].info, opC, opD);
    var steps := TwoLoginsCanLoseUpdate(w, s2, 0, 1, u, opC, opD);
    ReachableAfter(w, s2, steps);
    t := ApplyAll(w, s2, steps);
  }

  /** A request that is still loading its player ends at rest with the player cached. */
  lemma {:induction false} FinishLoading(w: World, s0: State, s: State, u: u32, c: nat) returns (t: State)
    requires Leads(w, s0, u, s) && WaitsOn(s, c, u) && (s.conns[c].pc.Mutate? ==> u in s.cache)
    ensures Leads(w, s0, u, t) && u in t.cache && t.conns == s.conns[c := s.conns[c].(pc := Idle)]
    decreases Rank(s.conns[c].pc)
  {
    WaitingWorks(s, c, u);
    if u in s.cache {
      t := Finish(w, s0, s, u, c);
    } else {
      AdvanceLeadsOn(w, s0, s, u, c);
      LoadingStep(w, s, u, c);
      t := FinishLoading(w, s0, Apply(w, s, Advance(c)), u, c);
    }
  }

  lemma LoadingStep(w: World, s: State, u: u32, c: nat)
    requires u !in s.cache && WaitsOn(s, c, u) && !s.conns[c].pc.Mutate?
    ensures var t := Apply(w, s, Advance(c));
            && WaitsOn(t, c, u) && (t.conns[c].pc.Mutate? ==> u in t.cache)
            && t.conns == s.conns[c := s.conns[c].(pc := t.conns[c].pc)]
            && Rank(t.conns[c].pc) < Rank(s.conns[c].pc)
  {
    hide Handle;
  }

  /** For every account that is not banned and has no readable row: one connection finishes one story
      while a second one is still logging in, and the row can end up as the default record. */
  lemma LateDefaultIsReachable(w: World, u: u32, ticket: string, op: Op) returns (t: State)
    requires !Banned(w.initial, u) && !HasReadable(w.initial, u) && op.request.Story?
    ensures Reachable(w, t) && AtRest(t, u) && u in t.cache && !Stores(t, u, t.cache[u].info)
  {
    var s := TwoLogIn(w, u, ticket);
    assert Untouched(s, u) && MayCreate(s, 1, u) && WaitsOn(s, 0, u);
    LeadsNowhere(w, s, u);
    hide Reachable, Leads, Untouched, Handle, Apply, Banned, ApplyAll, Rank;
    var s1 := ReachDefaultWrite(w, s, s, u, 1);
    var s2 := ReachLock(w, s, s1, u, 0);
    ReachableByLeading(w, s, u, s2);
    t := StoryBesideLogin(w, s2, u, ticket, op);
  }

  /** The first of two logins is handled: nothing changes but its place. */
  lemma LoginHandled(w: World, s: State, u: u32, ticket: string)
    requires Untouched(s, u) && s.conns.Keys == {0, 1} && s.conns[0] == Conn(Some(u), Mutate(u, LoginOp(ticket)))
    ensures var t := Apply(w, s, Advance(0));
            && t.conns == s.conns[0 := Conn(Some(u), Idle)] && t.store == s.store && t.cache == s.cache && u in s.cache
  {
    assert WorksOn(s, 0, u) && PlaceOk(s, u, s.conns[0].pc);
  }

  lemma StoryArrives(w: World, s: State, u: u32, ticket: string, op: Op) returns (t: State)
    requires Reachable(w, s) && Untouched(s, u) && Record(s, u) == DEFAULT_PLAYER
    requires s.conns.Keys == {0, 1} && s.conns[0] == Conn(Some(u), Mutate(u, LoginOp(ticket)))
    requires WaitsOn(s, 1, u) && s.conns[1].pc.SaveDefault?
    ensures Reachable(w, t) && Untouched(t, u) && Record(t, u) == DEFAULT_PLAYER
    ensures t.conns == s.conns[0 := Conn(Some(u), Ensure(u, op, 1))]
  {
    LoginHandled(w, s, u, ticket);
    ReachableNext(w, s, Advance(0));
    var s1 := Apply(w, s, Advance(0));
    hide Reachable, Proceed;
    ReachableNext(w, s1, Receive(0, GamePacket(op)));
    t := Apply(w, s1, Receive(0, GamePacket(op)));
  }

  lemma StoryBesideLogin(w: World, s: State, u: u32, ticket: string, op: Op) returns (t: State)
    requires Reachable(w, s) && Untouched(s, u) && Record(s, u) == DEFAULT_PLAYER && op.request.Story?
    requires s.conns.Keys == {0, 1} && s.conns[0] == Conn(Some(u), Mutate(u, LoginOp(ticket)))
    requires WaitsOn(s, 1, u) && s.conns[1].pc.SaveDefault? && OpOf(s, 1) == LoginOp(ticket)
    ensures Reachable(w, t) && AtRest(t, u) && u in t.cache && !Stores(t, u, t.cache[u].info)
  {
    hide Reachable, Leads;
    var s2 := StoryArrives(w, s, u, ticket, op);
    assert LeavesDefault(w, u, op, LoginOp(ticket)) by {
      assert |DEFAULT_PLAYER.storyList + [op.request.storyId]| != |DEFAULT_PLAYER.storyList|;
    }
    assert Clash(w, s2, u, 0, 1);
    hide Apply, Handle;
    EveryScheduleAgreesIffHarmless(w, s2, u);
    t :| Leads(w, s2, u, t) && AtRest(t, u) && !Agrees(t, u);
    ReachableByLeading(w, s2, u, t);
  }
}
