/** The player runtime (game/mod.rs, database.rs) and the gate's login (gate.rs) as a step machine.
    Every section under the players lock and every database call is one atomic step; any number of
    connections interleave freely. */
module Runtime {
  import opened Wrappers
  import opened Bytes
  import opened Game
  import Inventory

  /** A stored record either reads back as the record that was written, or not at all. */
  datatype Stored = Readable(info: Player) | Unreadable

  datatype Row = Row(banned: bool, data: Stored)

  datatype Session = Session(info: Player, dirty: bool)

  /** What is fixed for a run: game data, the ticket hash, and the players table found at start. */
  datatype World = World(cat: Inventory.Catalogue, hash: string -> string, initial: map<u32, Row>)

  datatype Packet =
    | LoginPacket(accountId: u32, ticket: string, checkKey: string, op: Op)
    | BadLogin
    | GamePacket(op: Op)

  /** Where a connection is. `passes` counts the ensure_player calls still to finish. */
  datatype Pc =
    | Idle
    | CheckAccount(accountId: u32, ticket: string, checkKey: string, op: Op)
    | CheckBan(accountId: u32, ticket: string, checkKey: string, op: Op)
    | Ensure(uid: u32, op: Op, passes: nat)
    | Load(uid: u32, op: Op, passes: nat)
    | SaveDefault(uid: u32, op: Op, passes: nat)
    | Insert(uid: u32, op: Op, passes: nat, info: Player)
    | Mutate(uid: u32, op: Op)
    | Save(uid: u32, info: Player, out: seq<Message>)
    | Closed

  datatype Conn = Conn(uid: Option<u32>, pc: Pc)

  /** What the gate did, in order. */
  datatype Event =
    | Accepted(conn: nat, uid: u32, ticket: string, checkKey: string)
    | Handed(conn: nat, uid: u32, op: Op)
    | Refused(conn: nat, result: u32, userId: u32)
    | Answered(conn: nat, out: seq<Message>)

  /** `log` and `events` are history: the handled requests of each uid in lock order, and the gate's
      dealings. No step looks at them. */
  datatype State = State(
    cache: map<u32, Session>, store: map<u32, Row>, accounts: set<u32>, conns: map<nat, Conn>,
    log: map<u32, seq<Op>>, events: seq<Event>)

  datatype Step =
    | Open(conn: nat)
    | Receive(conn: nat, packet: Packet)
    | Advance(conn: nat)
    | Fail(conn: nat)                       // a database call fails, or the task is aborted
    | SetBanned(uid: u32, banned: bool)     // an operator edits the players table
    | Register(uid: u32)                    // an account is created

  function Start(w: World): State {
    State(map[], w.initial, {}, map[], map[], [])
  }

  function At(s: State, c: nat, pc: Pc): State
    requires c in s.conns
  {
    s.(conns := s.conns[c := s.conns[c].(pc := pc)])
  }

  function Log(s: State, u: u32): seq<Op> {
    if u in s.log then s.log[u] else []
  }

  function Banned(store: map<u32, Row>, u: u32): bool {
    u in store && store[u].banned
  }

  predicate HasReadable(store: map<u32, Row>, u: u32) {
    u in store && store[u].data.Readable?
  }

  /** `save_player`: the ban flag of an existing row survives. */
  function Saved(store: map<u32, Row>, u: u32, info: Player): map<u32, Row> {
    store[u := Row(Banned(store, u), Readable(info))]
  }

  function Emit(s: State, events: seq<Event>): State {
    s.(events := s.events + events)
  }

  function Take(w: World, s: State, c: nat, p: Packet): State
    requires c in s.conns
  {
    match p
    case BadLogin => s
    case LoginPacket(accountId, ticket, checkKey, op) =>
      if w.hash(ticket) == checkKey
      then At(s, c, CheckAccount(accountId, ticket, checkKey, op.(request := Login(ticket))))
      else Emit(s, [Refused(c, 1, 0)])
    case GamePacket(op) =>
      match s.conns[c].uid
      case None => s
      case Some(uid) => Emit(At(s, c, Ensure(uid, op, 1)), [Handed(c, uid, op)])
  }

  /** After one ensure_player has finished. */
  function Ensured(uid: u32, op: Op, passes: nat): Pc {
    if passes > 1 then Ensure(uid, op, passes - 1) else Mutate(uid, op)
  }

  function MutateUnderLock(w: World, s: State, c: nat, u: u32, op: Op): State
    requires c in s.conns && u in s.cache
  {
    var r := Handle(w.cat, u, s.cache[u].info, op);
    var save := s.cache[u].dirty || r.dirty;
    var t := s.(cache := s.cache[u := Session(r.player, false)], log := s.log[u := Log(s, u) + [op]]);
    if save then At(t, c, Save(u, r.player, r.out)) else Emit(At(t, c, Idle), [Answered(c, r.out)])
  }

  function Proceed(w: World, s: State, c: nat): State
    requires c in s.conns
  {
    match s.conns[c].pc
    case Idle => s
    case Closed => s
    case CheckAccount(u, ticket, key, op) =>
      if u in s.accounts then At(s, c, CheckBan(u, ticket, key, op)) else Emit(At(s, c, Idle), [Refused(c, 1, 0)])
    case CheckBan(u, ticket, key, op) =>
      if Banned(s.store, u) then Emit(At(s, c, Idle), [Refused(c, 17, u)])
      else Emit(s.(conns := s.conns[c := Conn(Some(u), Ensure(u, op, 2))]),
                [Accepted(c, u, ticket, key), Handed(c, u, op)])
    case Ensure(u, op, n) => At(s, c, if u in s.cache then Ensured(u, op, n) else Load(u, op, n))
    case Load(u, op, n) =>
      At(s, c, if HasReadable(s.store, u) then Insert(u, op, n, s.store[u].data.info) else SaveDefault(u, op, n))
    case SaveDefault(u, op, n) =>
      At(s.(store := Saved(s.store, u, DEFAULT_PLAYER)), c, Insert(u, op, n, DEFAULT_PLAYER))
    case Insert(u, op, n, info) =>
      At(if u in s.cache then s else s.(cache := s.cache[u := Session(info, false)]), c, Ensured(u, op, n))
    case Mutate(u, op) =>
      if u in s.cache then MutateUnderLock(w, s, c, u, op) else At(s, c, Closed)  // "player is not loaded"
    case Save(u, info, out) =>
      Emit(At(s.(store := Saved(s.store, u, info)), c, Idle), [Answered(c, out)])
  }

  function Apply(w: World, s: State, step: Step): State {
    match step
    case Open(c) => if c in s.conns then s else s.(conns := s.conns[c := Conn(None, Idle)])
    case Receive(c, p) => if c in s.conns && s.conns[c].pc == Idle then Take(w, s, c, p) else s
    case Advance(c) => if c in s.conns then Proceed(w, s, c) else s
    case Fail(c) => if c in s.conns then At(s, c, Closed) else s
    case SetBanned(u, b) => if u in s.store then s.(store := s.store[u := s.store[u].(banned := b)]) else s
    case Register(u) => s.(accounts := s.accounts + {u})
  }

  /** The state after a run; every interleaving of every number of connections is such a run. */
  function Exec(w: World, steps: seq<Step>): State {
    if steps == [] then Start(w) else Apply(w, Exec(w, steps[..|steps| - 1]), steps[|steps| - 1])
  }

  // ---- No update is lost in the cache ------------------------------------------------------

  /** The record a uid starts from: what the table held when the run began, or the default. */
  function Origin(w: World, u: u32): Player {
    if HasReadable(w.initial, u) then w.initial[u].data.info else DEFAULT_PLAYER
  }

  function Folded(w: World, u: u32, ops: seq<Op>): Player {
    Run(w.cat, u, Origin(w, u), ops)
  }

  /** `info` is what the session of `u` was at some moment of its history. */
  predicate Snapshot(w: World, u: u32, ops: seq<Op>, info: Player) {
    exists k :: 0 <= k <= |ops| && info == Folded(w, u, ops[..k])
  }

  predicate UserOk(w: World, s: State, u: u32) {
    && (u in s.cache ==> s.cache[u] == Session(Folded(w, u, Log(s, u)), false) && HasReadable(s.store, u))
    && (u !in s.cache ==> Log(s, u) == [])
    && (HasReadable(w.initial, u) ==> HasReadable(s.store, u))
    && (HasReadable(s.store, u) ==> Snapshot(w, u, Log(s, u), s.store[u].data.info))
  }

  predicate PcOk(w: World, s: State, pc: Pc) {
    match pc
    case SaveDefault(u, _, _) => Origin(w, u) == DEFAULT_PLAYER
    case Insert(u, _, _, info) => HasReadable(s.store, u) && (u !in s.cache ==> info == Origin(w, u))
    case Mutate(u, _) => u in s.cache
    case Save(u, info, _) => u in s.cache && Snapshot(w, u, Log(s, u), info)
    case _ => true
  }

  ghost predicate Inv(w: World, s: State) {
    && (forall u: u32 :: UserOk(w, s, u))
    && (forall c | c in s.conns :: PcOk(w, s, s.conns[c].pc))
  }

  lemma SnapshotNow(w: World, u: u32, ops: seq<Op>)
    ensures Snapshot(w, u, ops, Folded(w, u, ops))
  {
    assert ops[..|ops|] == ops;
  }

  lemma SnapshotLater(w: World, u: u32, ops: seq<Op>, op: Op, info: Player)
    requires Snapshot(w, u, ops, info)
    ensures Snapshot(w, u, ops + [op], info)
  {
    var k :| 0 <= k <= |ops| && info == Folded(w, u, ops[..k]);
    assert (ops + [op])[..k] == ops[..k];
  }

  lemma FoldedStep(w: World, u: u32, ops: seq<Op>, op: Op)
    ensures Folded(w, u, ops + [op]) == Handle(w.cat, u, Folded(w, u, ops), op).player
  {
    assert (ops + [op])[..|ops|] == ops;
  }

  /** Nothing but a connection's place, the events and the accounts differs. */
  predicate SameTables(s: State, t: State) {
    t.cache == s.cache && t.log == s.log && t.store == s.store
  }

  lemma QuietStep(w: World, s: State, t: State)
    requires Inv(w, s) && SameTables(s, t)
    requires forall c | c in t.conns && (c !in s.conns || t.conns[c].pc != s.conns[c].pc) :: PcOk(w, s, t.conns[c].pc)
    ensures Inv(w, t)
  {
    hide Snapshot, Folded, Origin;
    forall u: u32
      ensures UserOk(w, t, u)
    {
      assert UserOk(w, s, u);
    }
    forall c | c in t.conns
      ensures PcOk(w, t, t.conns[c].pc)
    {
      if c in s.conns && t.conns[c].pc == s.conns[c].pc {
        assert PcOk(w, s, s.conns[c].pc);
      }
    }
  }

  lemma StoreStep(w: World, s: State, t: State, c: nat, u: u32, info: Player, pc: Pc)
    requires Inv(w, s) && c in s.conns && Snapshot(w, u, Log(s, u), info)
    requires t.cache == s.cache && t.log == s.log && t.store == Saved(s.store, u, info)
    requires t.conns == s.conns[c := s.conns[c].(pc := pc)] && PcOk(w, t, pc)
    ensures Inv(w, t)
  {
    hide Snapshot, Folded, Origin;
    forall v: u32
      ensures UserOk(w, t, v)
    {
      assert UserOk(w, s, v);
    }
    forall d | d in t.conns
      ensures PcOk(w, t, t.conns[d].pc)
    {
      if d != c {
        assert PcOk(w, s, s.conns[d].pc);
      }
    }
  }

  lemma InsertStep(w: World, s: State, t: State, c: nat, u: u32, info: Player, pc: Pc)
    requires Inv(w, s) && c in s.conns && u !in s.cache && HasReadable(s.store, u) && info == Origin(w, u)
    requires t == At(s.(cache := s.cache[u := Session(info, false)]), c, pc) && PcOk(w, t, pc)
    ensures Inv(w, t)
  {
    hide Snapshot, Origin;
    assert Folded(w, u, []) == Origin(w, u);
    hide Folded;
    forall v: u32
      ensures UserOk(w, t, v)
    {
      assert UserOk(w, s, v);
    }
    forall d | d in t.conns
      ensures PcOk(w, t, t.conns[d].pc)
    {
      if d != c {
        assert PcOk(w, s, s.conns[d].pc);
      }
    }
  }

  /** The log of `u` grows by the handled request; other uids are untouched. */
  lemma MutateKeepsUsers(w: World, s: State, t: State, u: u32, op: Op)
    requires Inv(w, s) && u in s.cache && t.store == s.store
    requires t.cache == s.cache[u := Session(Handle(w.cat, u, s.cache[u].info, op).player, false)]
    requires t.log == s.log[u := Log(s, u) + [op]]
    ensures forall v: u32 :: UserOk(w, t, v)
  {
    hide Handle;
    assert UserOk(w, s, u);
    FoldedStep(w, u, Log(s, u), op);
    SnapshotLater(w, u, Log(s, u), op, s.store[u].data.info);
    hide Snapshot, Folded, Origin;
    forall v: u32
      ensures UserOk(w, t, v)
    {
      assert UserOk(w, s, v);
    }
  }

  lemma MutateKeepsPc(w: World, s: State, t: State, u: u32, op: Op, pc: Pc)
    requires PcOk(w, s, pc) && t.store == s.store
    requires t.log == s.log[u := Log(s, u) + [op]]
    requires t.cache.Keys == s.cache.Keys
    ensures PcOk(w, t, pc)
  {
    if pc.Save? && pc.uid == u {
      SnapshotLater(w, u, Log(s, u), op, pc.info);
    }
    hide Snapshot, Folded, Origin;
  }

  lemma MutateStep(w: World, s: State, c: nat, u: u32, op: Op)
    requires Inv(w, s) && c in s.conns && u in s.cache
    ensures Inv(w, MutateUnderLock(w, s, c, u, op))
  {
    hide Handle, Snapshot, Folded, Origin;
    var t := MutateUnderLock(w, s, c, u, op);
    MutateKeepsUsers(w, s, t, u, op);
    SnapshotNow(w, u, Log(t, u));
    assert UserOk(w, t, u);
    forall d | d in t.conns
      ensures PcOk(w, t, t.conns[d].pc)
    {
      if d != c {
        MutateKeepsPc(w, s, t, u, op, s.conns[d].pc);
      }
    }
  }

  lemma ProceedKeepsInv(w: World, s: State, c: nat)
    requires Inv(w, s) && c in s.conns
    ensures Inv(w, Proceed(w, s, c))
  {
    hide Handle, Snapshot, Folded, Origin;
    var t, pc := Proceed(w, s, c), s.conns[c].pc;
    assert PcOk(w, s, pc);
    match pc
    case Load(u, _, _) =>
      LoadFindsOrigin(w, s, u);
      QuietStep(w, s, t);
    case SaveDefault(u, _, _) =>
      OriginIsSnapshot(w, u, Log(s, u));
      StoreStep(w, s, t, c, u, DEFAULT_PLAYER, t.conns[c].pc);
    case Insert(u, op, n, info) =>
      if u in s.cache {
        QuietStep(w, s, t);
      } else {
        InsertStep(w, s, t, c, u, info, t.conns[c].pc);
      }
    case Mutate(u, op) => MutateStep(w, s, c, u, op);
    case Save(u, info, _) => StoreStep(w, s, t, c, u, info, Idle);
    case _ => QuietStep(w, s, t);
  }

  /** Before the first insertion the row can only hold the record the run started with. */
  lemma LoadFindsOrigin(w: World, s: State, u: u32)
    requires Inv(w, s)
    ensures HasReadable(s.store, u) && u !in s.cache ==> s.store[u].data.info == Origin(w, u)
    ensures !HasReadable(s.store, u) ==> Origin(w, u) == DEFAULT_PLAYER
  {
    assert UserOk(w, s, u);
    FoldedNothing(w, u);
    if HasReadable(s.store, u) && u !in s.cache {
      var none: seq<Op> := [];
      var k :| 0 <= k <= |none| && s.store[u].data.info == Folded(w, u, none[..k]);
      assert none[..k] == [];
    }
  }

  lemma OriginIsSnapshot(w: World, u: u32, ops: seq<Op>)
    ensures Snapshot(w, u, ops, Origin(w, u))
  {
    FoldedNothing(w, u);
    assert ops[..0] == [];
  }

  lemma FoldedNothing(w: World, u: u32)
    ensures Folded(w, u, []) == Origin(w, u)
  {
  }

  lemma TakeKeepsInv(w: World, s: State, c: nat, p: Packet)
    requires Inv(w, s) && c in s.conns
    ensures SameTables(s, Take(w, s, c, p)) && Inv(w, Take(w, s, c, p))
  {
    hide UserOk;
    QuietStep(w, s, Take(w, s, c, p));
  }

  lemma BanKeepsInv(w: World, s: State, u: u32, b: bool)
    requires Inv(w, s) && u in s.store
    ensures Inv(w, s.(store := s.store[u := s.store[u].(banned := b)]))
  {
    hide Snapshot, Folded, Origin;
    var t := s.(store := s.store[u := s.store[u].(banned := b)]);
    forall v: u32
      ensures UserOk(w, t, v)
    {
      assert UserOk(w, s, v);
    }
    forall c | c in t.conns
      ensures PcOk(w, t, t.conns[c].pc)
    {
      assert PcOk(w, s, s.conns[c].pc);
    }
  }

  lemma ApplyKeepsInv(w: World, s: State, step: Step)
    requires Inv(w, s)
    ensures Inv(w, Apply(w, s, step))
  {
    hide Proceed, Take, UserOk, Inv;
    match step
    case Advance(c) =>
      if c in s.conns {
        ProceedKeepsInv(w, s, c);
      }
    case Receive(c, p) =>
      if c in s.conns {
        TakeKeepsInv(w, s, c, p);
      }
    case SetBanned(u, b) =>
      if u in s.store {
        BanKeepsInv(w, s, u, b);
      }
    case Open(c) => PlaceKeepsInv(w, s, Apply(w, s, step));
    case Fail(c) => PlaceKeepsInv(w, s, Apply(w, s, step));
    case Register(_) => PlaceKeepsInv(w, s, Apply(w, s, step));
  }

  lemma PlaceKeepsInv(w: World, s: State, t: State)
    requires Inv(w, s) && SameTables(s, t)
    requires forall c | c in t.conns ::
      t.conns[c].pc in {Idle, Closed} || (c in s.conns && t.conns[c].pc == s.conns[c].pc)
    ensures Inv(w, t)
  {
    hide UserOk;
    QuietStep(w, s, t);
  }

  lemma {:induction false} ExecInv(w: World, steps: seq<Step>)
    ensures Inv(w, Exec(w, steps))
  {
    if steps == [] {
      forall u: u32
        ensures UserOk(w, Start(w), u)
      {
        SnapshotNow(w, u, []);
        FoldedNothing(w, u);
      }
    } else {
      ExecInv(w, steps[..|steps| - 1]);
      ApplyKeepsInv(w, Exec(w, steps[..|steps| - 1]), steps[|steps| - 1]);
    }
  }

  /** Under every interleaving a cached session is the fold of the handlers, in lock order, from the
      record the table held at the start; the stored row is always some moment of that same history;
      and the "not loaded" error is unreachable. */
  lemma NoLostUpdate(w: World, steps: seq<Step>)
    ensures var s := Exec(w, steps);
            && (forall u | u in s.cache ::
                  && s.cache[u] == Session(Folded(w, u, Log(s, u)), false)
                  && HasReadable(s.store, u) && Snapshot(w, u, Log(s, u), s.store[u].data.info))
            && (forall c | c in s.conns && s.conns[c].pc.Mutate? :: s.conns[c].pc.uid in s.cache)
  {
    ExecInv(w, steps);
    var s := Exec(w, steps);
    hide Snapshot, Folded, Exec;
    forall u | u in s.cache
      ensures s.cache[u] == Session(Folded(w, u, Log(s, u)), false)
      ensures HasReadable(s.store, u) && Snapshot(w, u, Log(s, u), s.store[u].data.info)
    {
      assert UserOk(w, s, u);
    }
    forall c | c in s.conns && s.conns[c].pc.Mutate?
      ensures s.conns[c].pc.uid in s.cache
    {
      assert PcOk(w, s, s.conns[c].pc);
    }
  }

  predicate HistoryGrows(s: State, t: State) {
    && s.cache.Keys <= t.cache.Keys
    && (forall u | u in s.log :: u in t.log && s.log[u] <= t.log[u])
    && (forall u | u in s.cache && Log(t, u) == Log(s, u) :: t.cache[u] == s.cache[u])
  }

  lemma ProceedGrows(w: World, s: State, c: nat)
    requires c in s.conns
    ensures HistoryGrows(s, Proceed(w, s, c))
  {
    hide Handle, HasReadable, Saved, Banned;
    match s.conns[c].pc
    case Mutate(_, _) =>
    case _ => assert Proceed(w, s, c).log == s.log;
  }

  /** A session is never removed or replaced, and its history only grows. */
  lemma SessionsPersist(w: World, s: State, step: Step)
    ensures HistoryGrows(s, Apply(w, s, step))
  {
    hide Proceed;
    match step
    case Advance(c) =>
      if c in s.conns {
        ProceedGrows(w, s, c);
      }
    case Receive(c, p) =>
      if c in s.conns {
        assert SameTables(s, Take(w, s, c, p));
      }
    case _ =>
  }
}
