/** Agreement of the cache with the players table, and safety of logins, over whole runs of the
    player runtime. */
module RuntimeLaws {
  import opened Wrappers
  import opened Bytes
  import opened Game
  import opened Runtime
  import Inventory

  // ---- Cache and table agree ---------------------------------------------------------------

  /** The player a connection is working on, from ensure_player until its save is done. */
  function Busy(pc: Pc): Option<u32> {
    match pc
    case Idle => None
    case Closed => None
    case CheckAccount(_, _, _, _) => None
    case CheckBan(_, _, _, _) => None
    case _ => Some(pc.uid)
  }

  predicate WorksOn(s: State, c: nat, u: u32) {
    c in s.conns && Busy(s.conns[c].pc) == Some(u)
  }

  /** No two connections work on the same player. */
  ghost predicate NoOverlap(s: State) {
    forall c: nat, d: nat, u: u32 :: WorksOn(s, c, u) && WorksOn(s, d, u) ==> c == d
  }

  predicate SaveFails(s: State, step: Step) {
    step.Fail? && step.conn in s.conns && s.conns[step.conn].pc.Save?
  }

  /** A run in which operations on one uid never overlap and no save fails or is aborted. */
  ghost predicate Disciplined(w: World, steps: seq<Step>) {
    steps == []
    || (var before := Exec(w, steps[..|steps| - 1]);
        Disciplined(w, steps[..|steps| - 1])
        && !SaveFails(before, steps[|steps| - 1]) && NoOverlap(Exec(w, steps)))
  }

  predicate Stores(s: State, u: u32, info: Player) {
    u in s.store && s.store[u].data == Readable(info)
  }

  /** What is known while connection `c` works on its player. */
  predicate InFlight(s: State, pc: Pc) {
    match pc
    case Load(u, _, _) => u !in s.cache
    case SaveDefault(u, _, _) => u !in s.cache
    case Insert(u, _, _, info) => u !in s.cache && Stores(s, u, info)
    case Save(u, info, _) => u in s.cache && s.cache[u].info == info
    case _ => true
  }

  predicate Saving(s: State, c: nat, u: u32) {
    c in s.conns && s.conns[c].pc.Save? && s.conns[c].pc.uid == u
  }

  ghost predicate Agreement(s: State) {
    && (forall c | c in s.conns :: InFlight(s, s.conns[c].pc))
    && (forall u | u in s.cache :: (exists c :: Saving(s, c, u)) || Stores(s, u, s.cache[u].info))
    && (forall u | u in s.cache :: !s.cache[u].dirty)
  }

  /** Tables as before: only the place of connection `c` differs. */
  lemma PlaceKeepsAgreement(s: State, t: State, c: nat)
    requires Agreement(s) && SameTables(s, t)
    requires forall d | d != c :: (d in t.conns <==> d in s.conns) && (d in s.conns ==> t.conns[d] == s.conns[d])
    requires c in t.conns && InFlight(s, t.conns[c].pc)
    requires c in s.conns ==> !s.conns[c].pc.Save?
    ensures Agreement(t)
  {
    forall u | u in t.cache
      ensures (exists d :: Saving(t, d, u)) || Stores(t, u, t.cache[u].info)
    {
      if !Stores(s, u, s.cache[u].info) {
        var d :| Saving(s, d, u);
        assert Saving(t, d, u);
      }
    }
  }

  /** A change to the session or row of `u` by the only connection that works on `u`. */
  lemma OwnerKeepsAgreement(s: State, t: State, c: nat, u: u32)
    requires Agreement(s) && NoOverlap(s) && WorksOn(s, c, u) && c in t.conns
    requires t.conns == s.conns[c := t.conns[c]]
    requires forall v | v != u :: (v in t.cache <==> v in s.cache) && (v in s.cache ==> t.cache[v] == s.cache[v])
    requires forall v | v != u :: (v in t.store <==> v in s.store) && (v in s.store ==> t.store[v] == s.store[v])
    requires InFlight(t, t.conns[c].pc) && (u in t.cache ==> !t.cache[u].dirty)
    requires u in t.cache ==> Saving(t, c, u) || Stores(t, u, t.cache[u].info)
    ensures Agreement(t)
  {
    forall d | d in t.conns
      ensures InFlight(t, t.conns[d].pc)
    {
      if d != c {
        assert InFlight(s, s.conns[d].pc) && !WorksOn(s, d, u);
      }
    }
    forall v | v in t.cache
      ensures (exists d :: Saving(t, d, v)) || Stores(t, v, t.cache[v].info)
    {
      if v != u && !Stores(s, v, s.cache[v].info) {
        var d :| Saving(s, d, v);
        assert Saving(t, d, v);
      }
    }
  }

  lemma ProceedKeepsAgreement(w: World, s: State, c: nat)
    requires Agreement(s) && NoOverlap(s) && c in s.conns
    ensures Agreement(Proceed(w, s, c))
  {
    hide Agreement, NoOverlap, Handle;
    var t, pc := Proceed(w, s, c), s.conns[c].pc;
    KnownInFlight(s, c);
    match pc
    case SaveDefault(u, _, _) => OwnerKeepsAgreement(s, t, c, u);
    case Insert(u, _, _, _) => OwnerKeepsAgreement(s, t, c, u);
    case Mutate(_, _) => HandlingKeepsAgreement(w, s, c);
    case Save(u, _, _) => OwnerKeepsAgreement(s, t, c, u);
    case _ => PlaceKeepsAgreement(s, t, c);
  }

  lemma HandlingKeepsAgreement(w: World, s: State, c: nat)
    requires Agreement(s) && NoOverlap(s) && c in s.conns && s.conns[c].pc.Mutate?
    ensures Agreement(Proceed(w, s, c))
  {
    hide Agreement, NoOverlap, Handle;
    var t, u := Proceed(w, s, c), s.conns[c].pc.uid;
    KnownInFlight(s, c);
    if u in s.cache {
      DirtyFlagIsSound(w.cat, u, s.cache[u].info, s.conns[c].pc.op);
      SettledUnlessSaving(s, c, u);
      OwnerKeepsAgreement(s, t, c, u);
    } else {
      PlaceKeepsAgreement(s, t, c);
    }
  }

  lemma KnownInFlight(s: State, c: nat)
    requires Agreement(s) && c in s.conns
    ensures InFlight(s, s.conns[c].pc)
    ensures forall u | u in s.cache :: !s.cache[u].dirty
  {
  }

  /** If the only connection working on `u` is not saving, the row is up to date. */
  lemma SettledUnlessSaving(s: State, c: nat, u: u32)
    requires Agreement(s) && NoOverlap(s) && WorksOn(s, c, u) && !Saving(s, c, u) && u in s.cache
    ensures Stores(s, u, s.cache[u].info)
  {
    if !Stores(s, u, s.cache[u].info) {
      var d :| Saving(s, d, u);
      SavingWorks(s, d, u);
    }
  }

  lemma SavingWorks(s: State, d: nat, u: u32)
    requires Saving(s, d, u)
    ensures WorksOn(s, d, u)
  {
  }

  lemma BanKeepsAgreement(s: State, u: u32, b: bool)
    requires Agreement(s) && u in s.store
    ensures Agreement(s.(store := s.store[u := s.store[u].(banned := b)]))
  {
    var t := s.(store := s.store[u := s.store[u].(banned := b)]);
    assert forall v, info :: Stores(s, v, info) ==> Stores(t, v, info);
    forall v | v in t.cache
      ensures (exists d :: Saving(t, d, v)) || Stores(t, v, t.cache[v].info)
    {
      if !Stores(s, v, s.cache[v].info) {
        var d :| Saving(s, d, v);
        assert Saving(t, d, v);
      }
    }
  }

  lemma TakeKeepsAgreement(w: World, s: State, c: nat, p: Packet)
    requires Agreement(s) && c in s.conns && s.conns[c].pc == Idle
    ensures Agreement(Take(w, s, c, p))
  {
    hide Agreement;
    KnownInFlight(s, c);
    PlaceKeepsAgreement(s, Take(w, s, c, p), c);
  }

  lemma ApplyKeepsAgreement(w: World, s: State, step: Step)
    requires Agreement(s) && NoOverlap(s) && !SaveFails(s, step)
    ensures Agreement(Apply(w, s, step))
  {
    hide Agreement, NoOverlap, Proceed, Take;
    var t := Apply(w, s, step);
    match step
    case Advance(c) =>
      if c in s.conns {
        ProceedKeepsAgreement(w, s, c);
      }
    case SetBanned(u, b) =>
      if u in s.store {
        BanKeepsAgreement(s, u, b);
      }
    case Register(_) => RegisterKeepsAgreement(s, t);
    case Receive(c, p) =>
      if c in s.conns && s.conns[c].pc == Idle {
        TakeKeepsAgreement(w, s, c, p);
      }
    case Open(c) =>
      if c !in s.conns {
        PlaceKeepsAgreement(s, t, c);
      }
    case Fail(c) =>
      if c in s.conns {
        PlaceKeepsAgreement(s, t, c);
      }
  }

  lemma RegisterKeepsAgreement(s: State, t: State)
    requires Agreement(s) && SameTables(s, t) && t.conns == s.conns
    ensures Agreement(t)
  {
    forall u | u in t.cache
      ensures (exists d :: Saving(t, d, u)) || Stores(t, u, t.cache[u].info)
    {
      if !Stores(s, u, s.cache[u].info) {
        var d :| Saving(s, d, u);
        assert Saving(t, d, u);
      }
    }
  }

  lemma {:induction false} DisciplinedRunAgrees(w: World, steps: seq<Step>)
    requires Disciplined(w, steps)
    ensures Agreement(Exec(w, steps)) && NoOverlap(Exec(w, steps))
  {
    hide Apply;
    if steps == [] {
    } else {
      DisciplinedRunAgrees(w, steps[..|steps| - 1]);
      ApplyKeepsAgreement(w, Exec(w, steps[..|steps| - 1]), steps[|steps| - 1]);
    }
  }

  /** When operations on one uid never overlap and saves succeed, the row of every loaded player on
      which no connection is working holds exactly the cached record. */
  lemma CacheAndStoreAgree(w: World, steps: seq<Step>)
    requires Disciplined(w, steps)
    ensures var s := Exec(w, steps);
            forall u | u in s.cache && (forall c: nat :: !WorksOn(s, c, u)) :: Stores(s, u, s.cache[u].info)
  {
    var s := Exec(w, steps);
    DisciplinedRunAgrees(w, steps);
    forall u | u in s.cache && (forall c: nat :: !WorksOn(s, c, u))
      ensures Stores(s, u, s.cache[u].info)
    {
      if !Stores(s, u, s.cache[u].info) {
        var d :| Saving(s, d, u);
        assert WorksOn(s, d, u);
      }
    }
  }

  /** Both requests change the record and ask for a save, the second also after the first. */
  predicate BothTakeEffect(w: World, u: u32, info: Player, opC: Op, opD: Op) {
    var first := Handle(w.cat, u, info, opC);
    var second := Handle(w.cat, u, first.player, opD);
    first.dirty && second.dirty && second.player != first.player
  }

  /** Finishing any two stories is such a pair, whatever the record. */
  lemma StoriesTakeEffect(w: World, u: u32, info: Player, opC: Op, opD: Op)
    requires opC.request.Story? && opD.request.Story?
    ensures BothTakeEffect(w, u, info, opC, opD)
  {
    var stories := info.storyList + [opC.request.storyId];
    assert |stories + [opD.request.storyId]| != |stories|;
  }

  /** The condition is needed: whenever two connections are about to change the same player, saving in
      the opposite order of locking leaves the first change in the table and the second in the cache. */
  lemma OverlapLosesUpdate(w: World, s: State, c: nat, d: nat, u: u32, opC: Op, opD: Op)
    requires c != d && c in s.conns && d in s.conns && u in s.cache
    requires s.conns[c].pc == Mutate(u, opC) && s.conns[d].pc == Mutate(u, opD)
    ensures BothTakeEffect(w, u, s.cache[u].info, opC, opD) ==>
              var t := Apply(w, Apply(w, Apply(w, Apply(w, s, Advance(c)), Advance(d)), Advance(d)), Advance(c));
              && t.conns == s.conns[c := s.conns[c].(pc := Idle)][d := s.conns[d].(pc := Idle)]
              && u in t.cache && u in t.store && !Stores(t, u, t.cache[u].info)
              && Stores(t, u, Handle(w.cat, u, s.cache[u].info, opC).player)
  {
    hide Handle;
  }

  function ApplyAll(w: World, s: State, steps: seq<Step>): State {
    if steps == [] then s else Apply(w, ApplyAll(w, s, steps[..|steps| - 1]), steps[|steps| - 1])
  }

  lemma ApplyTwo(w: World, s: State, steps: seq<Step>, a: Step, b: Step)
    ensures ApplyAll(w, s, steps + [a, b]) == Apply(w, Apply(w, ApplyAll(w, s, steps), a), b)
  {
    hide Apply;
    var longer := steps + [a, b];
    assert longer[..|longer| - 1] == steps + [a];
    assert (steps + [a])[..|steps|] == steps;
  }

  lemma ReachesLock(w: World, s: State, c: nat, u: u32, op: Op)
    requires c in s.conns && s.conns[c] == Conn(Some(u), Idle) && u in s.cache
    ensures var t := Apply(w, Apply(w, s, Receive(c, GamePacket(op))), Advance(c));
            && t.conns == s.conns[c := Conn(Some(u), Mutate(u, op))] && SameTables(s, t)
  {
    hide Handle;
  }

  /** Any two idle connections logged in to one loaded account are enough: there is a schedule of two
      effective requests after which both are idle again and the table holds only the first change. */
  lemma TwoLoginsCanLoseUpdate(w: World, s: State, c: nat, d: nat, u: u32, opC: Op, opD: Op)
    returns (steps: seq<Step>)
    requires c != d && c in s.conns && d in s.conns && u in s.cache
    requires s.conns[c] == Conn(Some(u), Idle) && s.conns[d] == Conn(Some(u), Idle)
    ensures BothTakeEffect(w, u, s.cache[u].info, opC, opD) ==>
              var t := ApplyAll(w, s, steps);
              && t.conns == s.conns
              && u in t.cache && u in t.store && !Stores(t, u, t.cache[u].info)
  {
    var toLockC, toLockD := [Receive(c, GamePacket(opC)), Advance(c)], [Receive(d, GamePacket(opD)), Advance(d)];
    hide Apply, BothTakeEffect, ApplyAll;
    assert ApplyAll(w, s, []) == s by { ApplyNone(w, s); }
    ReachesLock(w, s, c, u, opC);
    ApplyTwo(w, s, [], toLockC[0], toLockC[1]);
    var s1 := ApplyAll(w, s, [] + toLockC);
    ReachesLock(w, s1, d, u, opD);
    ApplyTwo(w, s, [] + toLockC, toLockD[0], toLockD[1]);
    var s2 := ApplyAll(w, s, [] + toLockC + toLockD);
    OverlapLosesUpdate(w, s2, c, d, u, opC, opD);
    ApplyTwo(w, s, [] + toLockC + toLockD, Advance(c), Advance(d));
    ApplyTwo(w, s, [] + toLockC + toLockD + [Advance(c), Advance(d)], Advance(d), Advance(c));
    steps := [] + toLockC + toLockD + [Advance(c), Advance(d)] + [Advance(d), Advance(c)];
  }

  lemma ApplyNone(w: World, s: State)
    ensures ApplyAll(w, s, []) == s
  {
  }

  // ---- Logins ------------------------------------------------------------------------------

  /** The account of the latest accepted login on a connection. */
  function LatestLogin(events: seq<Event>, c: nat): Option<u32> {
    if events == [] then None
    else
      var last := events[|events| - 1];
      if last.Accepted? && last.conn == c then Some(last.uid) else LatestLogin(events[..|events| - 1], c)
  }

  predicate SafeEvent(earlier: seq<Event>, e: Event) {
    match e
    case Handed(c, u, _) => LatestLogin(earlier, c) == Some(u)
    case Answered(c, _) => LatestLogin(earlier, c).Some?
    case _ => true
  }

  /** Packets are handed over only for the latest accepted account, and only then answered. */
  predicate SafeTrace(events: seq<Event>) {
    forall i | 0 <= i < |events| :: SafeEvent(events[..i], events[i])
  }

  /** The same, step by step. */
  predicate SafeSoFar(events: seq<Event>) {
    events == []
    || (SafeSoFar(events[..|events| - 1]) && SafeEvent(events[..|events| - 1], events[|events| - 1]))
  }

  lemma {:induction false} SafeSoFarIsSafe(events: seq<Event>)
    requires SafeSoFar(events)
    ensures SafeTrace(events)
  {
    hide SafeEvent;
    if events != [] {
      var before := events[..|events| - 1];
      SafeSoFarIsSafe(before);
      forall i | 0 <= i < |events|
        ensures SafeEvent(events[..i], events[i])
      {
        assert i < |before| ==> events[..i] == before[..i];
      }
    }
  }

  /** A connection mid-login has a matching ticket and, past the account check, an existing account. */
  predicate Vetting(w: World, s: State, pc: Pc) {
    match pc
    case CheckAccount(_, ticket, key, _) => w.hash(ticket) == key
    case CheckBan(u, ticket, key, _) => w.hash(ticket) == key && u in s.accounts
    case _ => true
  }

  predicate GateConn(w: World, s: State, c: nat)
    requires c in s.conns
  {
    && s.conns[c].uid == LatestLogin(s.events, c)
    && (Busy(s.conns[c].pc).Some? ==> s.conns[c].uid == Busy(s.conns[c].pc))
    && Vetting(w, s, s.conns[c].pc)
  }

  ghost predicate GateInv(w: World, s: State) {
    && SafeSoFar(s.events)
    && (forall c | c in s.conns :: GateConn(w, s, c))
    && (forall c: nat | c !in s.conns :: LatestLogin(s.events, c) == None)
  }

  lemma EmitOne(events: seq<Event>, e: Event)
    requires SafeSoFar(events) && SafeEvent(events, e)
    ensures SafeSoFar(events + [e])
    ensures forall c :: LatestLogin(events + [e], c) ==
                        if e.Accepted? && e.conn == c then Some(e.uid) else LatestLogin(events, c)
  {
    assert (events + [e])[..|events|] == events;
  }

  lemma EmitAll(events: seq<Event>, c: nat, es: seq<Event>)
    requires SafeSoFar(events) && |es| <= 2 && forall i | 0 <= i < |es| :: es[i].conn == c
    requires |es| > 0 ==> SafeEvent(events, es[0])
    requires |es| > 1 ==> SafeEvent(events + es[..1], es[1])
    ensures SafeSoFar(events + es)
    ensures forall d :: d != c ==> LatestLogin(events + es, d) == LatestLogin(events, d)
  {
    hide SafeSoFar, SafeEvent;
    if |es| == 0 {
      assert events + es == events;
    } else {
      EmitOne(events, es[0]);
      assert es[..1] == [es[0]];
      if |es| == 2 {
        EmitOne(events + [es[0]], es[1]);
        assert events + es == events + [es[0]] + [es[1]];
      } else {
        assert es == [es[0]];
      }
    }
  }

  /** A step by connection `c` that emits `es`, checked one by one. */
  lemma StepKeepsGate(w: World, s: State, t: State, c: nat, es: seq<Event>)
    requires GateInv(w, s) && c in t.conns && |es| <= 2
    requires t.events == s.events + es && s.accounts <= t.accounts
    requires forall d | d != c :: (d in t.conns <==> d in s.conns) && (d in s.conns ==> t.conns[d] == s.conns[d])
    requires forall i | 0 <= i < |es| :: es[i].conn == c
    requires |es| > 0 ==> SafeEvent(s.events, es[0])
    requires |es| > 1 ==> SafeEvent(s.events + es[..1], es[1])
    requires t.conns[c].uid == LatestLogin(t.events, c)
    requires Busy(t.conns[c].pc).Some? ==> t.conns[c].uid == Busy(t.conns[c].pc)
    requires Vetting(w, t, t.conns[c].pc)
    ensures GateInv(w, t)
  {
    hide SafeSoFar, SafeEvent, LatestLogin;
    EmitAll(s.events, c, es);
    forall d | d in t.conns
      ensures GateConn(w, t, d)
    {
      if d != c {
        assert GateConn(w, s, d);
      }
    }
  }

  lemma LatestAfter(events: seq<Event>, c: nat, e: Event)
    ensures LatestLogin(events + [e], c) == if e.Accepted? && e.conn == c then Some(e.uid) else LatestLogin(events, c)
  {
    assert (events + [e])[..|events|] == events;
  }

  lemma KnownAtGate(w: World, s: State, c: nat)
    requires GateInv(w, s) && c in s.conns
    ensures GateConn(w, s, c)
  {
  }

  lemma BanCheckKeepsGate(w: World, s: State, c: nat)
    requires GateInv(w, s) && c in s.conns && s.conns[c].pc.CheckBan?
    ensures GateInv(w, Proceed(w, s, c))
  {
    hide LatestLogin, Banned;
    var t := Proceed(w, s, c);
    var CheckBan(u, ticket, key, op) := s.conns[c].pc;
    assert GateConn(w, s, c);
    if Banned(s.store, u) {
      LatestAfter(s.events, c, Refused(c, 17, u));
      StepKeepsGate(w, s, t, c, [Refused(c, 17, u)]);
    } else {
      var accepted, handed := Accepted(c, u, ticket, key), Handed(c, u, op);
      LatestAfter(s.events, c, accepted);
      LatestAfter(s.events + [accepted], c, handed);
      assert [accepted, handed][..1] == [accepted];
      assert s.events + [accepted, handed] == s.events + [accepted] + [handed];
      StepKeepsGate(w, s, t, c, [accepted, handed]);
    }
  }

  lemma ProceedKeepsGate(w: World, s: State, c: nat)
    requires GateInv(w, s) && c in s.conns
    ensures GateInv(w, Proceed(w, s, c))
  {
    hide Handle, HasReadable, LatestLogin, Banned, Saved, GateInv;
    var t, pc := Proceed(w, s, c), s.conns[c].pc;
    KnownAtGate(w, s, c);
    match pc
    case CheckAccount(u, _, _, _) =>
      LatestAfter(s.events, c, Refused(c, 1, 0));
      StepKeepsGate(w, s, t, c, if u in s.accounts then [] else [Refused(c, 1, 0)]);
    case CheckBan(_, _, _, _) => BanCheckKeepsGate(w, s, c);
    case Mutate(u, op) =>
      if u in s.cache && !s.cache[u].dirty && !Handle(w.cat, u, s.cache[u].info, op).dirty {
        var answer := Answered(c, Handle(w.cat, u, s.cache[u].info, op).out);
        LatestAfter(s.events, c, answer);
        StepKeepsGate(w, s, t, c, [answer]);
      } else {
        StepKeepsGate(w, s, t, c, []);
      }
    case Save(_, _, out) =>
      LatestAfter(s.events, c, Answered(c, out));
      StepKeepsGate(w, s, t, c, [Answered(c, out)]);
    case _ => StepKeepsGate(w, s, t, c, []);
  }

  lemma TakeKeepsGate(w: World, s: State, c: nat, p: Packet)
    requires GateInv(w, s) && c in s.conns && s.conns[c].pc == Idle
    ensures GateInv(w, Take(w, s, c, p))
  {
    hide LatestLogin;
    var t := Take(w, s, c, p);
    assert GateConn(w, s, c);
    match p
    case BadLogin =>
    case LoginPacket(_, ticket, key, _) =>
      LatestAfter(s.events, c, Refused(c, 1, 0));
      StepKeepsGate(w, s, t, c, if w.hash(ticket) == key then [] else [Refused(c, 1, 0)]);
    case GamePacket(op) =>
      if s.conns[c].uid.Some? {
        var handed := Handed(c, s.conns[c].uid.value, op);
        LatestAfter(s.events, c, handed);
        StepKeepsGate(w, s, t, c, [handed]);
      }
  }

  lemma ApplyKeepsGate(w: World, s: State, step: Step)
    requires GateInv(w, s)
    ensures GateInv(w, Apply(w, s, step))
  {
    hide Proceed, Take, SafeSoFar, LatestLogin;
    var t := Apply(w, s, step);
    match step
    case Advance(c) =>
      if c in s.conns {
        ProceedKeepsGate(w, s, c);
      }
    case Receive(c, p) =>
      if c in s.conns && s.conns[c].pc == Idle {
        TakeKeepsGate(w, s, c, p);
      }
    case _ =>
      forall c | c in t.conns
        ensures GateConn(w, t, c)
      {
        if c in s.conns {
          assert GateConn(w, s, c);
        }
      }
  }

  lemma {:induction false} ExecGate(w: World, steps: seq<Step>)
    ensures GateInv(w, Exec(w, steps))
  {
    hide Apply;
    if steps != [] {
      ExecGate(w, steps[..|steps| - 1]);
      ApplyKeepsGate(w, Exec(w, steps[..|steps| - 1]), steps[|steps| - 1]);
    }
  }

  /** In every run, each packet handed to the player runtime, and each player a connection works on,
      is the account of the latest accepted login on that connection. */
  lemma PacketsGoToLatestLogin(w: World, steps: seq<Step>)
    ensures var s := Exec(w, steps);
            && SafeTrace(s.events)
            && (forall c: nat, u: u32 :: WorksOn(s, c, u) ==> LatestLogin(s.events, c) == Some(u))
  {
    hide Exec, SafeSoFar, SafeTrace, LatestLogin;
    var s := Exec(w, steps);
    ExecGate(w, steps);
    SafeSoFarIsSafe(s.events);
    forall c: nat, u: u32 | WorksOn(s, c, u)
      ensures LatestLogin(s.events, c) == Some(u)
    {
      assert GateConn(w, s, c);
    }
  }

  predicate Vetted(w: World, s: State, e: Event) {
    match e
    case Accepted(_, u, ticket, key) => w.hash(ticket) == key && u in s.accounts && !(u in s.store && s.store[u].banned)
    case Refused(_, result, u) =>
      || (result == 17 && u in s.accounts && u in s.store && s.store[u].banned)
      || (result == 1 && u == 0)
    case _ => true
  }

  predicate AddsVetted(w: World, s: State, t: State) {
    s.events <= t.events && forall i | |s.events| <= i < |t.events| :: Vetted(w, s, t.events[i])
  }

  lemma EmitsVetted(w: World, s: State, t: State, es: seq<Event>)
    requires t.events == s.events + es && forall i | 0 <= i < |es| :: Vetted(w, s, es[i])
    ensures AddsVetted(w, s, t)
  {
    hide Vetted;
  }

  lemma AcceptsVetted(w: World, s: State, c: nat)
    requires c in s.conns && Vetting(w, s, s.conns[c].pc)
    ensures AddsVetted(w, s, Proceed(w, s, c))
  {
    hide Handle, HasReadable, AddsVetted, Saved;
    var t := Proceed(w, s, c);
    match s.conns[c].pc
    case CheckAccount(u, _, _, _) => EmitsVetted(w, s, t, if u in s.accounts then [] else [Refused(c, 1, 0)]);
    case CheckBan(u, ticket, key, op) =>
      EmitsVetted(w, s, t, if Banned(s.store, u) then [Refused(c, 17, u)]
                           else [Accepted(c, u, ticket, key), Handed(c, u, op)]);
    case Mutate(u, op) =>
      EmitsVetted(w, s, t, if t.events == s.events then []
                           else [Answered(c, Handle(w.cat, u, s.cache[u].info, op).out)]);
    case Save(_, _, out) => EmitsVetted(w, s, t, [Answered(c, out)]);
    case _ => EmitsVetted(w, s, t, []);
  }

  /** A login is accepted only with a matching ticket, an existing account, and no ban at that moment; it is
      refused with 17 only for an existing account with a ban, and otherwise with 1. */
  lemma LoginsAreVetted(w: World, steps: seq<Step>, step: Step)
    ensures AddsVetted(w, Exec(w, steps), Apply(w, Exec(w, steps), step))
  {
    hide Exec, Proceed, LatestLogin;
    var s := Exec(w, steps);
    ExecGate(w, steps);
    match step
    case Advance(c) =>
      if c in s.conns {
        assert GateConn(w, s, c);
        AcceptsVetted(w, s, c);
      }
    case Receive(c, p) =>
    case _ =>
  }

  /** Before a login is accepted, every other command is dropped: no answer, no change at all. */
  lemma SilentBeforeLogin(w: World, steps: seq<Step>, c: nat, p: Packet)
    requires LatestLogin(Exec(w, steps).events, c).None? && !p.LoginPacket?
    ensures Apply(w, Exec(w, steps), Receive(c, p)) == Exec(w, steps)
  {
    hide Exec, LatestLogin;
    ExecGate(w, steps);
    if c in Exec(w, steps).conns {
      assert GateConn(w, Exec(w, steps), c);
    }
  }

  /** If the table starts with each row's uid unset or its own, so does every session and row ever. */
  lemma SessionsKeepTheirUid(w: World, steps: seq<Step>)
    requires forall u: u32 :: OwnUid(u, Origin(w, u))
    ensures var s := Exec(w, steps);
            && (forall u | u in s.cache :: OwnUid(u, s.cache[u].info))
            && (forall u: u32 | HasReadable(s.store, u) :: OwnUid(u, s.store[u].data.info))
  {
    hide Exec, Run;
    var s := Exec(w, steps);
    ExecInv(w, steps);
    forall u: u32
      ensures u in s.cache ==> OwnUid(u, s.cache[u].info)
      ensures HasReadable(s.store, u) ==> OwnUid(u, s.store[u].data.info)
    {
      assert UserOk(w, s, u);
      RunKeepsUid(w.cat, u, Origin(w, u), Log(s, u));
      if HasReadable(s.store, u) {
        var k :| 0 <= k <= |Log(s, u)| && s.store[u].data.info == Folded(w, u, Log(s, u)[..k]);
        RunKeepsUid(w.cat, u, Origin(w, u), Log(s, u)[..k]);
      }
    }
  }

  lemma SnapshotIsSound(w: World, u: u32, ops: seq<Op>, info: Player)
    requires Inventory.Keyed(w.cat) && SoundRecord(w.cat, u, Origin(w, u)) && Snapshot(w, u, ops, info)
    ensures SoundRecord(w.cat, u, info)
  {
    hide SoundRecord, Run, Origin;
    var k :| 0 <= k <= |ops| && info == Folded(w, u, ops[..k]);
    ReachableRecord(w.cat, u, Origin(w, u), ops[..k]);
  }

  /** If the table starts with sound records only, then under every interleaving every cached record and
      every readable row is sound at every moment: dense ship ids while they fit 32 bits, ships of the
      game data, no skin twice, no foreign uid. */
  lemma RecordsStaySound(w: World, steps: seq<Step>)
    requires Inventory.Keyed(w.cat)
    requires forall u: u32 | HasReadable(w.initial, u) :: SoundRecord(w.cat, u, w.initial[u].data.info)
    ensures var s := Exec(w, steps);
            && (forall u | u in s.cache :: SoundRecord(w.cat, u, s.cache[u].info))
            && (forall u: u32 | HasReadable(s.store, u) :: SoundRecord(w.cat, u, s.store[u].data.info))
  {
    hide Exec, SoundRecord, Snapshot, Folded;
    var s := Exec(w, steps);
    ExecInv(w, steps);
    forall u: u32
      ensures u in s.cache ==> SoundRecord(w.cat, u, s.cache[u].info)
      ensures HasReadable(s.store, u) ==> SoundRecord(w.cat, u, s.store[u].data.info)
    {
      DefaultIsSound(w.cat, u);
      assert UserOk(w, s, u);
      SnapshotNow(w, u, Log(s, u));
      if u in s.cache {
        SnapshotIsSound(w, u, Log(s, u), s.cache[u].info);
      }
      if HasReadable(s.store, u) {
        SnapshotIsSound(w, u, Log(s, u), s.store[u].data.info);
      }
    }
  }
}
