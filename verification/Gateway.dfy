/** The objects behind the step machine: the database (database.rs), the player runtime
    (game/mod.rs) and one gate connection (gate.rs), each operation run without interruption. */
module Gateway {
  import opened Wrappers
  import opened Bytes
  import opened Game
  import opened Runtime
  import Inventory

  // ---- What one uninterrupted request does -------------------------------------------------

  /** The record a request on `u` starts from. */
  function Prior(cache: map<u32, Session>, store: map<u32, Row>, u: u32): Player {
    if u in cache then cache[u].info
    else if HasReadable(store, u) then store[u].data.info
    else DEFAULT_PLAYER
  }

  /** Loading a missing or unreadable record writes the default. */
  function StoreEnsured(cache: map<u32, Session>, store: map<u32, Row>, u: u32): map<u32, Row> {
    if u in cache || HasReadable(store, u) then store else Saved(store, u, DEFAULT_PLAYER)
  }

  function Reaction(cat: Inventory.Catalogue, cache: map<u32, Session>, store: map<u32, Row>, u: u32, op: Op): Outcome {
    Handle(cat, u, Prior(cache, store, u), op)
  }

  function CacheAfter(cat: Inventory.Catalogue, cache: map<u32, Session>, store: map<u32, Row>, u: u32, op: Op)
    : map<u32, Session>
  {
    cache[u := Session(Reaction(cat, cache, store, u, op).player, false)]
  }

  function StoreAfter(cat: Inventory.Catalogue, cache: map<u32, Session>, store: map<u32, Row>, u: u32, op: Op)
    : map<u32, Row>
  {
    var r := Reaction(cat, cache, store, u, op);
    if r.dirty then Saved(StoreEnsured(cache, store, u), u, r.player) else StoreEnsured(cache, store, u)
  }

  predicate AllClean(cache: map<u32, Session>) {
    forall u | u in cache :: !cache[u].dirty
  }

  /** Every cached record is what its row holds. */
  predicate InStep(cache: map<u32, Session>, store: map<u32, Row>) {
    forall u | u in cache :: HasReadable(store, u) && store[u].data.info == cache[u].info
  }

  /** A request keeps cache and table in step and leaves other players and ban flags alone. */
  lemma RequestKeepsStep(cat: Inventory.Catalogue, cache: map<u32, Session>, store: map<u32, Row>, u: u32, op: Op)
    ensures var c, t := CacheAfter(cat, cache, store, u, op), StoreAfter(cat, cache, store, u, op);
            && (InStep(cache, store) ==> InStep(c, t))
            && (forall v: u32 :: Banned(t, v) == Banned(store, v))
            && (forall v | v != u && v in store :: v in t && t[v] == store[v])
            && (forall v | v != u && v in cache :: v in c && c[v] == cache[v])
  {
    hide Handle;
    DirtyFlagIsSound(cat, u, Prior(cache, store, u), op);
  }

  function Advances(w: World, s: State, c: nat, n: nat): State {
    if n == 0 then s else Apply(w, Advances(w, s, c, n - 1), Advance(c))
  }

  lemma FinishesSave(w: World, s: State, c: nat, u: u32, op: Op) returns (n: nat)
    requires c in s.conns && u in s.cache && !s.cache[u].dirty && s.conns[c].pc == Mutate(u, op)
    ensures var t := Advances(w, s, c, n);
            && c in t.conns && t.conns[c] == s.conns[c].(pc := Idle)
            && t.cache == CacheAfter(w.cat, s.cache, s.store, u, op)
            && t.store == StoreAfter(w.cat, s.cache, s.store, u, op)
            && t.events == s.events + [Answered(c, Reaction(w.cat, s.cache, s.store, u, op).out)]
  {
    hide Handle;
    var t := Apply(w, s, Advance(c));
    assert Advances(w, s, c, 0) == s;
    assert Advances(w, s, c, 1) == t;
    n := if Handle(w.cat, u, s.cache[u].info, op).dirty then 2 else 1;
    assert n == 2 ==> Advances(w, s, c, 2) == Apply(w, t, Advance(c));
  }

  /** One ensure_player, run without interruption. */
  lemma EnsuresPlayer(w: World, s: State, c: nat, u: u32, op: Op, passes: nat) returns (n: nat)
    requires c in s.conns && s.conns[c].pc == Ensure(u, op, passes)
    ensures var t := Advances(w, s, c, n);
            && c in t.conns && t.conns[c] == s.conns[c].(pc := Ensured(u, op, passes))
            && t.cache == (if u in s.cache then s.cache else s.cache[u := Session(Prior(s.cache, s.store, u), false)])
            && t.store == StoreEnsured(s.cache, s.store, u) && t.events == s.events
  {
    var t1 := Apply(w, s, Advance(c));
    var t2 := Apply(w, t1, Advance(c));
    var t3 := Apply(w, t2, Advance(c));
    var t4 := Apply(w, t3, Advance(c));
    assert Advances(w, s, c, 0) == s;
    assert Advances(w, s, c, 1) == t1;
    assert Advances(w, s, c, 2) == t2;
    assert Advances(w, s, c, 3) == t3;
    assert Advances(w, s, c, 4) == t4;
    n := if u in s.cache then 1 else if HasReadable(s.store, u) then 3 else 4;
  }

  lemma {:induction false} AdvancesCompose(w: World, s: State, c: nat, m: nat, n: nat)
    ensures Advances(w, s, c, m + n) == Advances(w, Advances(w, s, c, m), c, n)
  {
    hide Apply;
    if n > 0 {
      AdvancesCompose(w, s, c, m, n - 1);
    }
  }

  /** The step machine, left alone with one connection, does to cache and table exactly what the
      uninterrupted request does, and gives the same answer. */
  lemma UninterruptedRequest(w: World, s: State, c: nat, u: u32, op: Op) returns (n: nat)
    requires c in s.conns && AllClean(s.cache) && s.conns[c].pc == Ensure(u, op, 1)
    ensures var t := Advances(w, s, c, n);
            && c in t.conns && t.conns[c] == s.conns[c].(pc := Idle)
            && t.cache == CacheAfter(w.cat, s.cache, s.store, u, op)
            && t.store == StoreAfter(w.cat, s.cache, s.store, u, op)
            && t.events == s.events + [Answered(c, Reaction(w.cat, s.cache, s.store, u, op).out)]
  {
    hide Handle, Apply;
    var m := EnsuresPlayer(w, s, c, u, op, 1);
    var t := Advances(w, s, c, m);
    var k := FinishesSave(w, t, c, u, op);
    AdvancesCompose(w, s, c, m, k);
    n := m + k;
  }

  /** The same from the arrival of a packet on a logged-in connection: it is handed on for the account in
      the slot, and answered. */
  lemma UninterruptedPacket(w: World, s: State, c: nat, u: u32, op: Op) returns (n: nat)
    requires c in s.conns && AllClean(s.cache) && s.conns[c] == Conn(Some(u), Idle)
    ensures var t := Advances(w, Apply(w, s, Receive(c, GamePacket(op))), c, n);
            && c in t.conns && t.conns[c] == s.conns[c]
            && t.cache == CacheAfter(w.cat, s.cache, s.store, u, op)
            && t.store == StoreAfter(w.cat, s.cache, s.store, u, op)
            && t.events == s.events + [Handed(c, u, op), Answered(c, Reaction(w.cat, s.cache, s.store, u, op).out)]
  {
    var t := Apply(w, s, Receive(c, GamePacket(op)));
    assert t.conns[c] == Conn(Some(u), Ensure(u, op, 1));
    hide Apply, Advances, Handle, CacheAfter, StoreAfter;
    n := UninterruptedRequest(w, t, c, u, op);
  }

  datatype Reply = Refusal(result: u32, userId: u32) | Response(message: Message)

  /** Ticket matches, account exists, no ban. */
  predicate Admits(hash: string -> string, accounts: set<u32>, rows: map<u32, Row>, p: Packet)
    requires p.LoginPacket?
  {
    hash(p.ticket) == p.checkKey && p.accountId in accounts && !Banned(rows, p.accountId)
  }

  /** What a login leaves behind: the slot, the two tables and the answer. */
  datatype LoginResult = LoginResult(
    slot: Option<u32>, players: map<u32, Session>, rows: map<u32, Row>, out: seq<Reply>)

  function LoggedIn(
      hash: string -> string, accounts: set<u32>, slot: Option<u32>,
      players: map<u32, Session>, rows: map<u32, Row>, p: Packet): LoginResult
    requires p.LoginPacket?
  {
    if Admits(hash, accounts, rows, p) then
      var prior := Prior(players, rows, p.accountId);
      LoginResult(Some(p.accountId), players[p.accountId := Session(prior, false)],
                  StoreEnsured(players, rows, p.accountId), [Response(LoginReply(prior.uid, p.ticket))])
    else
      var banned := hash(p.ticket) == p.checkKey && p.accountId in accounts;
      LoginResult(slot, players, rows, [if banned then Refusal(17, p.accountId) else Refusal(1, 0)])
  }

  /** A login with a wrong ticket or an unknown account is refused with 1, one to a banned account with 17,
      both without any change. All others get the slot, and the player's record is then cached: the one
      cached before, or the readable one of the row, or else a blank one, which is written to the row. */
  lemma LoginOutcomes(
      hash: string -> string, accounts: set<u32>, slot: Option<u32>,
      players: map<u32, Session>, rows: map<u32, Row>, p: Packet)
    requires p.LoginPacket?
    ensures var r, u := LoggedIn(hash, accounts, slot, players, rows, p), p.accountId;
            if hash(p.ticket) != p.checkKey || u !in accounts then
              r == LoginResult(slot, players, rows, [Refusal(1, 0)])
            else if u in rows && rows[u].banned then
              r == LoginResult(slot, players, rows, [Refusal(17, u)])
            else
              && r.slot == Some(u) && u in r.players && r.players == players[u := r.players[u]]
              && r.out == [Response(LoginReply(r.players[u].info.uid, p.ticket))] && !r.players[u].dirty
              && (u in players ==> r.players[u].info == players[u].info && r.rows == rows)
              && (u !in players && u in rows && rows[u].data.Readable? ==>
                    r.players[u].info == rows[u].data.info && r.rows == rows)
              && (u !in players && !(u in rows && rows[u].data.Readable?) ==>
                    && r.players[u].info == Player(0, "", 0, 0, 0, [], [], [], [], [])
                    && r.rows == rows[u := Row(false, Readable(r.players[u].info))])
  {
  }

  /** The last part of a login: ensure_player twice, then the request under the lock. */
  lemma AcceptedLogin(w: World, s: State, c: nat, u: u32, op: Op) returns (n: nat)
    requires c in s.conns && AllClean(s.cache) && s.conns[c].pc == Ensure(u, op, 2) && op.request.Login?
    ensures var t, prior := Advances(w, s, c, n), Prior(s.cache, s.store, u);
            && c in t.conns && t.conns[c] == s.conns[c].(pc := Idle)
            && t.cache == s.cache[u := Session(prior, false)] && t.store == StoreEnsured(s.cache, s.store, u)
            && t.events == s.events + [Answered(c, [LoginReply(prior.uid, op.request.ticket)])]
  {
    hide Apply, Advances;
    var m := EnsuresPlayer(w, s, c, u, op, 2);
    var t := Advances(w, s, c, m);
    var k := EnsuresPlayer(w, t, c, u, op, 1);
    AdvancesCompose(w, s, c, m, k);
    var t2 := Advances(w, t, c, k);
    var l := FinishesSave(w, t2, c, u, op);
    AdvancesCompose(w, s, c, m + k, l);
    n := m + k + l;
  }

  /** What the gate records of a login with the given answer. */
  function LoginEvents(c: nat, p: Packet, out: seq<Reply>): seq<Event>
    requires p.LoginPacket? && |out| == 1
  {
    match out[0]
    case Refusal(result, userId) => [Refused(c, result, userId)]
    case Response(message) =>
      [Accepted(c, p.accountId, p.ticket, p.checkKey),
       Handed(c, p.accountId, p.op.(request := Login(p.ticket))), Answered(c, [message])]
  }

  /** Two more steps take an admitted login to ensure_player. */
  lemma AdmittedLogin(w: World, s: State, c: nat, p: Packet)
    requires c in s.conns && s.conns[c].pc == Idle && p.LoginPacket? && Admits(w.hash, s.accounts, s.store, p)
    ensures var t, op := Advances(w, Apply(w, s, Receive(c, p)), c, 2), p.op.(request := Login(p.ticket));
            && c in t.conns && t.conns[c] == Conn(Some(p.accountId), Ensure(p.accountId, op, 2))
            && SameTables(s, t)
            && t.events == s.events + [Accepted(c, p.accountId, p.ticket, p.checkKey), Handed(c, p.accountId, op)]
  {
    var s0 := Apply(w, s, Receive(c, p));
    var s1 := Apply(w, s0, Advance(c));
    assert Advances(w, s0, c, 0) == s0;
    assert Advances(w, s0, c, 1) == s1;
    assert Advances(w, s0, c, 2) == Apply(w, s1, Advance(c));
  }

  /** A login that is not admitted is over after at most two more steps. */
  lemma RefusedLogin(w: World, s: State, c: nat, p: Packet) returns (n: nat)
    requires c in s.conns && s.conns[c].pc == Idle && p.LoginPacket? && !Admits(w.hash, s.accounts, s.store, p)
    ensures var t := Advances(w, Apply(w, s, Receive(c, p)), c, n);
            var banned := w.hash(p.ticket) == p.checkKey && p.accountId in s.accounts;
            && c in t.conns && t.conns[c] == s.conns[c] && SameTables(s, t)
            && t.events == s.events + [if banned then Refused(c, 17, p.accountId) else Refused(c, 1, 0)]
  {
    var s0 := Apply(w, s, Receive(c, p));
    var s1 := Apply(w, s0, Advance(c));
    assert Advances(w, s0, c, 0) == s0;
    assert Advances(w, s0, c, 1) == s1;
    assert Advances(w, s0, c, 2) == Apply(w, s1, Advance(c));
    n := if w.hash(p.ticket) != p.checkKey then 0 else if p.accountId !in s.accounts then 1 else 2;
  }

  /** The step machine, left alone with one connection, does to slot, cache and table exactly what the
      uninterrupted login does, and gives the same answer. */
  lemma UninterruptedLogin(w: World, s: State, c: nat, p: Packet) returns (n: nat)
    requires c in s.conns && s.conns[c].pc == Idle && AllClean(s.cache) && p.LoginPacket?
    ensures var t := Advances(w, Apply(w, s, Receive(c, p)), c, n);
            var r := LoggedIn(w.hash, s.accounts, s.conns[c].uid, s.cache, s.store, p);
            && c in t.conns && t.conns[c] == Conn(r.slot, Idle)
            && t.cache == r.players && t.store == r.rows
            && |r.out| == 1 && t.events == s.events + LoginEvents(c, p, r.out)
  {
    hide Apply, Advances, Banned, StoreEnsured, Prior;
    if Admits(w.hash, s.accounts, s.store, p) {
      var s0 := Apply(w, s, Receive(c, p));
      var op := p.op.(request := Login(p.ticket));
      AdmittedLogin(w, s, c, p);
      var k := AcceptedLogin(w, Advances(w, s0, c, 2), c, p.accountId, op);
      AdvancesCompose(w, s0, c, 2, k);
      n := 2 + k;
    } else {
      n := RefusedLogin(w, s, c, p);
    }
  }

  // ---- The objects -------------------------------------------------------------------------

  class Database {
    var rows: map<u32, Row>
    var accounts: set<u32>

    constructor (rows: map<u32, Row>, accounts: set<u32>)
      ensures this.rows == rows && this.accounts == accounts
    {
      this.rows, this.accounts := rows, accounts;
    }

    method GetPlayerRow(uid: u32) returns (row: Option<Row>)
      ensures row == if uid in rows then Some(rows[uid]) else None
    {
      row := if uid in rows then Some(rows[uid]) else None;
    }

    /** Insert or update: only the data of this row changes. */
    method SavePlayer(uid: u32, info: Player)
      modifies this`rows
      ensures rows == Saved(old(rows), uid, info)
      ensures rows == old(rows)[uid := Row(uid in old(rows) && old(rows)[uid].banned, Readable(info))]
    {
      var banned := uid in rows && rows[uid].banned;
      rows := rows[uid := Row(banned, Readable(info))];
    }

    method LoadOrCreatePlayer(uid: u32) returns (info: Player)
      modifies this`rows
      ensures info == Prior(map[], old(rows), uid)
      ensures rows == StoreEnsured(map[], old(rows), uid)
      ensures HasReadable(rows, uid) && rows[uid].data.info == info
      ensures if uid in old(rows) && old(rows)[uid].data.Readable?
              then rows == old(rows) && info == old(rows)[uid].data.info
              else info == Player(0, "", 0, 0, 0, [], [], [], [], [])
                   && rows == old(rows)[uid := Row(uid in old(rows) && old(rows)[uid].banned, Readable(info))]
    {
      var row := GetPlayerRow(uid);
      if row.Some? && row.value.data.Readable? {
        return row.value.data.info;
      }
      info := DEFAULT_PLAYER;
      SavePlayer(uid, info);
    }
  }

  class PlayerRuntime {
    const db: Database
    const cat: Inventory.Catalogue
    var players: map<u32, Session>

    constructor (db: Database, cat: Inventory.Catalogue)
      ensures this.db == db && this.cat == cat && players == map[]
    {
      this.db, this.cat, players := db, cat, map[];
    }

    method EnsurePlayer(uid: u32)
      modifies this`players, db`rows
      ensures players == if uid in old(players) then old(players)
                         else old(players)[uid := Session(Prior(old(players), old(db.rows), uid), false)]
      ensures db.rows == StoreEnsured(old(players), old(db.rows), uid)
    {
      if uid in players {
        return;
      }
      var info := db.LoadOrCreatePlayer(uid);
      players := players[uid := Session(info, false)];
    }

    method HandlePacket(uid: u32, op: Op) returns (out: seq<Message>)
      requires AllClean(players)
      modifies this`players, db`rows
      ensures AllClean(players)
      ensures players == CacheAfter(cat, old(players), old(db.rows), uid, op)
      ensures db.rows == StoreAfter(cat, old(players), old(db.rows), uid, op)
      ensures out == Reaction(cat, old(players), old(db.rows), uid, op).out
    {
      hide Handle;
      EnsurePlayer(uid);
      var session := players[uid];
      var record := new PlayerInfo(session.info);
      var dirty;
      dirty, out := record.HandlePacket(cat, uid, op);
      var save := session.dirty || dirty;
      var info := record.Value();
      players := players[uid := Session(info, false)];
      if save {
        db.SavePlayer(uid, info);
      }
    }
  }

  function Responses(out: seq<Message>): seq<Reply> {
    seq(|out|, i requires 0 <= i < |out| => Response(out[i]))
  }

  class Connection {
    const runtime: PlayerRuntime
    const hash: string -> string
    var uid: Option<u32>

    constructor (runtime: PlayerRuntime, hash: string -> string)
      ensures this.runtime == runtime && this.hash == hash && uid == None
    {
      this.runtime, this.hash, uid := runtime, hash, None;
    }

    method HandleLogin(p: Packet) returns (out: seq<Reply>)
      requires p.LoginPacket? && AllClean(runtime.players)
      modifies this`uid, runtime`players, runtime.db`rows
      ensures AllClean(runtime.players)
      ensures LoginResult(uid, runtime.players, runtime.db.rows, out)
              == LoggedIn(hash, runtime.db.accounts, old(uid), old(runtime.players), old(runtime.db.rows), p)
      ensures uid != old(uid) || (exists i :: 0 <= i < |out| && out[i].Response?) ==>
                && hash(p.ticket) == p.checkKey && p.accountId in runtime.db.accounts
                && !(p.accountId in old(runtime.db.rows) && old(runtime.db.rows)[p.accountId].banned)
      ensures hash(p.ticket) != p.checkKey || p.accountId !in runtime.db.accounts ==> out == [Refusal(1, 0)]
      ensures hash(p.ticket) == p.checkKey && p.accountId in runtime.db.accounts
              && p.accountId in old(runtime.db.rows) && old(runtime.db.rows)[p.accountId].banned ==>
                out == [Refusal(17, p.accountId)]
      ensures out[0].Refusal? ==>
                uid == old(uid) && runtime.players == old(runtime.players) && runtime.db.rows == old(runtime.db.rows)
      ensures |out| == 1 && (out[0].Response? ==> uid == Some(p.accountId))
    {
      var result, userId := 1, 0;
      if hash(p.ticket) == p.checkKey && p.accountId in runtime.db.accounts {
        userId := p.accountId;
        var row := runtime.db.GetPlayerRow(p.accountId);
        result := if row.Some? && row.value.banned then 17 else 0;
      }
      if result != 0 {
        return [Refusal(result, userId)];
      }
      uid := Some(p.accountId);
      runtime.EnsurePlayer(p.accountId);
      var messages := runtime.HandlePacket(p.accountId, p.op.(request := Login(p.ticket)));
      out := Responses(messages);
    }

    /** Before a login every other command is dropped without any effect; after one it acts on the
        logged-in account. */
    method HandlePacket(p: Packet) returns (out: seq<Reply>)
      requires AllClean(runtime.players)
      modifies this`uid, runtime`players, runtime.db`rows
      ensures AllClean(runtime.players)
      ensures !p.LoginPacket? ==> uid == old(uid)
      ensures p.BadLogin? || (p.GamePacket? && old(uid).None?) ==>
                out == [] && runtime.players == old(runtime.players) && runtime.db.rows == old(runtime.db.rows)
      ensures p.GamePacket? && old(uid).Some? ==>
                var u := old(uid).value;
                && runtime.players == CacheAfter(runtime.cat, old(runtime.players), old(runtime.db.rows), u, p.op)
                && runtime.db.rows == StoreAfter(runtime.cat, old(runtime.players), old(runtime.db.rows), u, p.op)
                && out == Responses(Reaction(runtime.cat, old(runtime.players), old(runtime.db.rows), u, p.op).out)
      ensures p.LoginPacket? ==>
                LoginResult(uid, runtime.players, runtime.db.rows, out)
                == LoggedIn(hash, runtime.db.accounts, old(uid), old(runtime.players), old(runtime.db.rows), p)
    {
      match p {
        case LoginPacket(_, _, _, _) => out := HandleLogin(p);
        case BadLogin => out := [];
        case GamePacket(op) =>
          if uid.None? {
            return [];
          }
          var messages := runtime.HandlePacket(uid.value, op);
          out := Responses(messages);
      }
    }
  }
}
