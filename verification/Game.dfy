/** One player's record and the packet handlers that change it (player_info.rs, game/mod.rs). */
module Game {
  import opened Wrappers
  import opened Bytes
  import opened Texts
  import opened Inventory
  import opened Statistics

  datatype Pair = Pair(key: u32, value: u32)

  /** The fields of the record that some handler reads or changes after creation. */
  datatype Player = Player(
    uid: u32, nickName: string, displayIcon: u32, registerTime: u32, chatRoomId: u32,
    character: seq<Pair>, storyList: seq<u32>, ships: seq<Ship>, skins: seq<Skin>, resources: seq<Pair>)

  const DEFAULT_PLAYER := Player(0, "", 0, 0, 0, [], [], [], [], [])

  const NOVICE_STORIES: seq<u32> := [
    2400002, 2400001, 90004, 2, 1, 90012,
    30001, 11561, 30002, 90006, 90023, 90040, 30003, 30004, 6351, 90005, 90007, 90008,
    90009, 90030, 2200001]

  const SECOND_SHIP: u32 := 106011

  const STARTING_RESOURCES := [Pair(1, 3000), Pair(2, 500), Pair(5, 5), Pair(7, 5), Pair(8, 4000)]

  /** Decoded requests. `Other` is every branch that answers with constants, and any payload that
      does not decode. */
  datatype Request =
    | Login(ticket: string)
    | Create(nickName: string, shipId: u32)
    | LoadData
    | Story(storyId: u32)
    | JoinRoom(roomId: u32)
    | SetCharacter(character: seq<Pair>)
    | SetSkin(shipId: u32, skinId: u32)
    | Chat(content: string)
    | Other

  /** A request with the clock reading and the hash map orders it meets. */
  datatype Op = Op(request: Request, now: u32, shipOrder: seq<string>, skinOrder: seq<string>)

  datatype Message =
    | LoginReply(userId: u32, ticket: string)
    | Created(userId: u32)
    | StatisticsList(entries: seq<Entry>)
    | ShipList(ships: seq<Ship>)
    | MoreShips(ships: seq<Ship>)
    | SkinList(skins: seq<Skin>)
    | ShipCount(count: u32)
    | RoomJoined(roomId: u32)
    | StoryDone
    | CharacterSet
    | SkinSet
    | ServerChat(text: string)

  datatype Outcome = Outcome(player: Player, dirty: bool, out: seq<Message>)

  // ---- Specification functions -------------------------------------------------------------

  function Initialised(cat: Catalogue, p: Player, uid: u32, nickName: string, shipId: u32, now: u32): Player {
    var first := AddShip(cat, p.ships, shipId);
    var secretary := if first == [] then 1 else first[|first| - 1].id;
    Player(uid, nickName, shipId, now, 1, [Pair(secretary, 0)], NOVICE_STORIES,
           AddShip(cat, first, SECOND_SHIP), p.skins, p.resources + STARTING_RESOURCES)
  }

  /** The first word of a text without leading white space. */
  function Leading(s: string): (word: string)
    ensures word <= s && (forall i | 0 <= i < |word| :: !IsWhitespace(word[i]))
    ensures |word| < |s| ==> IsWhitespace(s[|word|])
  {
    if s == [] || IsWhitespace(s[0]) then [] else [s[0]] + Leading(s[1..])
  }

  function ShipMessages(ships: seq<Ship>): seq<Message> {
    var (first, rest) := NotifyShips(ships);
    [ShipList(first)]
    + (if rest.Some? then seq(|rest.value|, i requires 0 <= i < |rest.value| => MoreShips(rest.value[i])) else [])
  }

  const SHIPS_GIVEN := "Already give all ships to you~ Have Fun!"
  const SKINS_GIVEN := "Already give all skins to you~ Have Fun!"
  const HELP := "1. ship: Give all ships. 2. skin: Give all skins"
  const BAD_COMMAND := "Command Error, using `help` to show all available commands."

  function HandleChat(cat: Catalogue, p: Player, content: string, op: Op): Outcome {
    var command := Leading(TrimStart(content));
    if command == "ship" then
      var ships := GiveAllShips(cat, p.ships, op.shipOrder);
      Outcome(p.(ships := ships), true, ShipMessages(ships) + [ServerChat(SHIPS_GIVEN)])
    else if command == "skin" then
      var skins := GiveAllSkins(cat, p.skins, p.ships, op.skinOrder);
      Outcome(p.(skins := skins), true, [SkinList(skins), ServerChat(SKINS_GIVEN)])
    else
      Outcome(p, false, [ServerChat(if command == [] then BAD_COMMAND else HELP)])
  }

  function Handle(cat: Catalogue, uid: u32, p: Player, op: Op): Outcome {
    match op.request
    case Login(ticket) => Outcome(p, false, [LoginReply(p.uid, ticket)])
    case Create(nickName, shipId) =>
      Outcome(Initialised(cat, p, uid, nickName, shipId, op.now), true, [Created(uid)])
    case LoadData =>
      Outcome(p, false,
              [StatisticsList(NotifyStatistics(cat, p.ships))] + ShipMessages(p.ships)
              + [SkinList(p.skins), ShipCount(|p.ships| % 0x1_0000_0000)])
    case Story(storyId) => Outcome(p.(storyList := p.storyList + [storyId]), true, [StoryDone])
    case JoinRoom(roomId) =>
      var room := if roomId == 0 then 1 else roomId;
      Outcome(p.(chatRoomId := room), p.chatRoomId != room, [RoomJoined(room)])
    case SetCharacter(character) => Outcome(p.(character := character), true, [CharacterSet])
    case SetSkin(shipId, skinId) =>
      Outcome(p.(ships := ChangeSkin(p.ships, shipId, skinId)), true, [SkinSet])
    case Chat(content) => HandleChat(cat, p, content, op)
    case Other => Outcome(p, false, [])
  }

  /** The record after a whole sequence of handled requests. */
  function Run(cat: Catalogue, uid: u32, p: Player, ops: seq<Op>): Player {
    if ops == [] then p
    else Handle(cat, uid, Run(cat, uid, p, ops[..|ops| - 1]), ops[|ops| - 1]).player
  }

  /** The first list goes out as the ship list, the others as additions to it, in order. */
  lemma ShipMessagesCarryLists(ships: seq<Ship>)
    ensures var lists, messages := PushedLists(ships), ShipMessages(ships);
            && |messages| == |lists| && messages[0] == ShipList(lists[0])
            && forall i | 0 < i < |lists| :: messages[i] == MoreShips(lists[i])
  {
    hide Chunks;
  }

  // ---- What each request does --------------------------------------------------------------

  predicate AllBlank(s: string) {
    forall i | 0 <= i < |s| :: IsWhitespace(s[i])
  }

  /** A word, followed by nothing or by a blank and anything. */
  predicate IsWord(word: string, rest: string) {
    word != [] && (forall i | 0 <= i < |word| :: !IsWhitespace(word[i])) && (rest != [] ==> IsWhitespace(rest[0]))
  }

  lemma {:induction false} BlanksAreTrimmed(blanks: string, text: string)
    requires AllBlank(blanks) && (text != [] ==> !IsWhitespace(text[0]))
    ensures TrimStart(blanks + text) == text
  {
    if blanks == [] {
      assert blanks + text == text;
    } else {
      assert (blanks + text)[1..] == blanks[1..] + text;
      BlanksAreTrimmed(blanks[1..], text);
    }
  }

  lemma {:induction false} LeadingIsWord(word: string, rest: string)
    requires (forall i | 0 <= i < |word| :: !IsWhitespace(word[i])) && (rest != [] ==> IsWhitespace(rest[0]))
    ensures Leading(word + rest) == word
  {
    if word == [] {
      assert word + rest == rest;
    } else {
      assert (word + rest)[1..] == word[1..] + rest;
      LeadingIsWord(word[1..], rest);
    }
  }

  lemma CommandIsFirstWord(blanks: string, word: string, rest: string)
    requires AllBlank(blanks) && IsWord(word, rest)
    ensures Leading(TrimStart(blanks + word + rest)) == word
  {
    assert blanks + word + rest == blanks + (word + rest);
    BlanksAreTrimmed(blanks, word + rest);
    LeadingIsWord(word, rest);
  }

  /** The chat command `ship`: skins and all else stay, every ship that can be handed out is owned
      afterwards, each new one once; the list of all ships and the confirmation go out. */
  lemma ShipCommandGrantsShips(cat: Catalogue, uid: u32, p: Player, op: Op, blanks: string, rest: string)
    requires AllBlank(blanks) && (rest != [] ==> IsWhitespace(rest[0])) && op.request == Chat(blanks + "ship" + rest)
    requires Keyed(cat) && Walks(op.shipOrder, cat.templates)
    ensures var r := Handle(cat, uid, p, op);
            var ships, lists := r.player.ships, PushedLists(r.player.ships);
            && r.dirty && r.player == p.(ships := ships) && p.ships <= ships
            && TemplateSet(ships) == TemplateSet(p.ships) + Eligible(cat)
            && FreshGrants(cat, TemplateSet(p.ships), ships, |p.ships|)
            && |r.out| == |lists| + 1 && r.out[0] == ShipList(lists[0])
            && (forall i | 0 < i < |lists| :: r.out[i] == MoreShips(lists[i]))
            && r.out[|lists|] == ServerChat("Already give all ships to you~ Have Fun!")
  {
    CommandIsFirstWord(blanks, "ship", rest);
    GiveAllShipsIsOrderIndependent(cat, p.ships, op.shipOrder);
    hide GiveAllShips, Leading, TrimStart, Eligible, FreshGrants, ShipMessages, PushedLists, TemplateSet;
    ShipMessagesCarryLists(GiveAllShips(cat, p.ships, op.shipOrder));
  }

  /** The chat command `skin`: ships and all else stay, and with at least one ship every skin of an owned
      ship's group is owned afterwards, none twice; the list of all skins and the confirmation go out. */
  lemma SkinCommandGrantsSkins(cat: Catalogue, uid: u32, p: Player, op: Op, blanks: string, rest: string)
    requires AllBlank(blanks) && (rest != [] ==> IsWhitespace(rest[0])) && op.request == Chat(blanks + "skin" + rest)
    requires Walks(op.skinOrder, cat.skins)
    ensures var r := Handle(cat, uid, p, op);
            var skins := r.player.skins;
            && r.dirty && r.player == p.(skins := skins)
            && (if p.ships == [] then skins == p.skins
                else UniqueIds(skins) && FirstOccurrences(p.skins) <= skins
                     && SkinIds(skins) == SkinIds(p.skins) + OwnedGroupSkinIds(cat, p.ships))
            && r.out == [SkinList(skins), ServerChat("Already give all skins to you~ Have Fun!")]
  {
    CommandIsFirstWord(blanks, "skin", rest);
    if p.ships != [] {
      GiveAllSkinsGives(cat, p.skins, p.ships, op.skinOrder);
    }
    assert GiveAllSkins(cat, p.skins, [], op.skinOrder) == p.skins;
    hide GiveAllSkins, Leading, TrimStart, UniqueIds, SkinIds, OwnedGroupSkinIds, FirstOccurrences;
  }

  /** Any other first word only brings the help text. */
  lemma OtherWordsBringHelp(cat: Catalogue, uid: u32, p: Player, op: Op, blanks: string, word: string, rest: string)
    requires AllBlank(blanks) && IsWord(word, rest) && op.request == Chat(blanks + word + rest)
    requires word != "ship" && word != "skin"
    ensures Handle(cat, uid, p, op)
            == Outcome(p, false, [ServerChat("1. ship: Give all ships. 2. skin: Give all skins")])
  {
    CommandIsFirstWord(blanks, word, rest);
    hide Leading, TrimStart;
  }

  /** A blank chat line only brings the error text. */
  lemma BlankChatBringsError(cat: Catalogue, uid: u32, p: Player, op: Op, blanks: string)
    requires AllBlank(blanks) && op.request == Chat(blanks)
    ensures Handle(cat, uid, p, op)
            == Outcome(p, false, [ServerChat("Command Error, using `help` to show all available commands.")])
  {
    assert blanks + [] == blanks;
    BlanksAreTrimmed(blanks, []);
  }

  /** Creation: whatever was there is overwritten, except ships, skins and resources, which are added to;
      the secretary is the last ship owned after the chosen one was granted, or number 1. */
  lemma CreationSetsUpPlayer(cat: Catalogue, uid: u32, p: Player, op: Op)
    requires op.request.Create?
    ensures var r, chosen := Handle(cat, uid, p, op), AddShip(cat, p.ships, op.request.shipId);
            && r.dirty && r.out == [Created(uid)]
            && r.player.uid == uid && r.player.nickName == op.request.nickName
            && r.player.displayIcon == op.request.shipId && r.player.registerTime == op.now
            && r.player.chatRoomId == 1 && r.player.skins == p.skins
            && r.player.ships == AddShip(cat, chosen, 106011)
            && r.player.character == [Pair(if chosen == [] then 1 else chosen[|chosen| - 1].id, 0)]
            && r.player.resources
               == p.resources + [Pair(1, 3000), Pair(2, 500), Pair(5, 5), Pair(7, 5), Pair(8, 4000)]
            && r.player.storyList
               == [2400002, 2400001, 90004, 2, 1, 90012, 30001, 11561, 30002, 90006, 90023, 90040, 30003, 30004,
                   6351, 90005, 90007, 90008, 90009, 90030, 2200001]
  {
    hide AddShip;
  }

  /** Loading changes nothing and sends, in this order: the statistics, the lists of ships, the skins, and
      the number of ships. */
  lemma LoadingSendsEverything(cat: Catalogue, uid: u32, p: Player, op: Op)
    requires op.request.LoadData?
    ensures var r, lists := Handle(cat, uid, p, op), PushedLists(p.ships);
            && !r.dirty && r.player == p && |r.out| == |lists| + 3
            && r.out[0] == StatisticsList(NotifyStatistics(cat, p.ships)) && r.out[1] == ShipList(lists[0])
            && (forall i | 0 < i < |lists| :: r.out[i + 1] == MoreShips(lists[i]))
            && r.out[|lists| + 1] == SkinList(p.skins)
            && r.out[|lists| + 2] == ShipCount(|p.ships| % 0x1_0000_0000)
  {
    ShipMessagesCarryLists(p.ships);
    assert |PushedLists(p.ships)| >= 1;
    hide NotifyStatistics, ShipMessages, PushedLists;
    var out, messages := Handle(cat, uid, p, op).out, ShipMessages(p.ships);
    assert out[0 + 1] == messages[0];
    assert forall i | 0 <= i < |messages| :: out[i + 1] == messages[i];
  }

  /** Each of the short requests changes at most its own field and has one answer. A room number 0 means
      room 1, and joining the present room asks for no save; a skin change of an unknown ship still does. */
  lemma ShortRequests(cat: Catalogue, uid: u32, p: Player, op: Op)
    ensures var r := Handle(cat, uid, p, op);
            match op.request
            case Login(ticket) => !r.dirty && r.player == p && r.out == [LoginReply(p.uid, ticket)]
            case Story(id) =>
              && r.dirty && r.out == [StoryDone]
              && r.player == p.(storyList := r.player.storyList)
              && |r.player.storyList| == |p.storyList| + 1 && p.storyList <= r.player.storyList
              && r.player.storyList[|p.storyList|] == id
            case JoinRoom(room) =>
              && r.player == p.(chatRoomId := r.player.chatRoomId)
              && (room > 0 ==> r.player.chatRoomId == room) && (room == 0 ==> r.player.chatRoomId == 1)
              && r.out == [RoomJoined(r.player.chatRoomId)]
              && (r.dirty <==> r.player.chatRoomId != p.chatRoomId)
            case SetCharacter(list) =>
              && r.dirty && r.out == [CharacterSet]
              && r.player == p.(character := r.player.character) && r.player.character == list
            case SetSkin(shipId, skinId) =>
              && r.dirty && r.out == [SkinSet]
              && r.player == p.(ships := r.player.ships) && |r.player.ships| == |p.ships|
              && forall i | 0 <= i < |p.ships| ::
                   r.player.ships[i] == if p.ships[i].id == shipId
                                           && forall k | 0 <= k < i :: p.ships[k].id != shipId
                                        then p.ships[i].(skinId := skinId) else p.ships[i]
            case Other => r == Outcome(p, false, [])
            case _ => true
  {
    if op.request.SetSkin? {
      ChangeSkinHitsFirst(p.ships, op.request.shipId, op.request.skinId);
      hide ChangeSkin;
    }
  }

  // ---- Laws of every reachable record ------------------------------------------------------

  /** The dirty flag is sound: without it the record is unchanged, so nothing unsaved is lost. */
  lemma DirtyFlagIsSound(cat: Catalogue, uid: u32, p: Player, op: Op)
    ensures !Handle(cat, uid, p, op).dirty ==> Handle(cat, uid, p, op).player == p
  {
  }

  predicate OwnUid(uid: u32, p: Player) {
    p.uid == 0 || p.uid == uid
  }

  lemma AddShipKeepsCatalogue(cat: Catalogue, ships: seq<Ship>, shipId: u32)
    requires Keyed(cat) && InCatalogue(cat, ships)
    ensures ships <= AddShip(cat, ships, shipId) && InCatalogue(cat, AddShip(cat, ships, shipId))
  {
    hide Print;
  }

  lemma {:induction false} GrantAllKeepsShips(cat: Catalogue, ships: seq<Ship>, owned: set<u32>, order: seq<string>)
    requires Keyed(cat) && InCatalogue(cat, ships)
    ensures var r := GrantAll(cat, ships, owned, order);
            && ships <= r && InCatalogue(cat, r)
            && (Dense(ships) && |r| <= MAX_U32 ==> Dense(r))
    decreases |order|
  {
    hide Print, ParseUnsigned, Grantable;
    if order != [] {
      var key := order[0];
      var next := GrantKey(cat, ships, owned, key);
      if next != ships {
        var id := ParseUnsigned(key, MAX_U32).value;
        AddShipKeepsCatalogue(cat, ships, id);
        if Dense(ships) {
          AddShipKeepsDense(cat, ships, id);
        }
      }
      GrantAllKeepsShips(cat, next, OwnedAfter(cat, owned, key), order[1..]);
    }
  }

  lemma ChangeSkinKeepsShips(cat: Catalogue, ships: seq<Ship>, shipId: u32, skinId: u32)
    requires InCatalogue(cat, ships)
    ensures var r := ChangeSkin(ships, shipId, skinId);
            |r| == |ships| && InCatalogue(cat, r) && (Dense(ships) ==> Dense(r))
  {
    hide Print;
  }

  /** What every handler keeps of the ships: none is lost, all are in the game data, and ids stay
      dense while the count fits 32 bits. */
  lemma HandleKeepsShips(cat: Catalogue, uid: u32, p: Player, op: Op)
    requires Keyed(cat) && InCatalogue(cat, p.ships)
    ensures var r := Handle(cat, uid, p, op).player;
            && |r.ships| >= |p.ships| && InCatalogue(cat, r.ships)
            && (Dense(p.ships) && |r.ships| <= MAX_U32 ==> Dense(r.ships))
  {
    hide Print, NotifyStatistics, ShipMessages, Leading, Grantable, AddShip, ChangeSkin, GiveAllSkins, GrantAll;
    hide NOVICE_STORIES, STARTING_RESOURCES;
    match op.request
    case Create(_, shipId) =>
      var first := AddShip(cat, p.ships, shipId);
      AddShipKeepsCatalogue(cat, p.ships, shipId);
      AddShipKeepsCatalogue(cat, first, SECOND_SHIP);
      if Dense(p.ships) {
        AddShipKeepsDense(cat, p.ships, shipId);
        if Dense(first) {
          AddShipKeepsDense(cat, first, SECOND_SHIP);
        }
      }
    case SetSkin(shipId, skinId) => ChangeSkinKeepsShips(cat, p.ships, shipId, skinId);
    case Chat(_) => GrantAllKeepsShips(cat, p.ships, TemplateSet(p.ships), op.shipOrder);
    case _ =>
  }

  lemma {:induction false} GiveAllSkinsKeepsUnique(cat: Catalogue, skins: seq<Skin>, ships: seq<Ship>,
                                                   order: seq<string>)
    requires UniqueIds(skins)
    ensures UniqueIds(GiveAllSkins(cat, skins, ships, order))
  {
    hide Print;
    if ships != [] {
      var front := GiveAllSkins(cat, skins, ships[..|ships| - 1], order);
      GiveAllSkinsKeepsUnique(cat, skins, ships[..|ships| - 1], order);
      FirstOccurrencesDedup(front);
      var key := Print(ships[|ships| - 1].templateId);
      if key in cat.templates {
        AppendSkinsAdds(cat, FirstOccurrences(front), cat.templates[key].groupType, order);
      }
    }
  }

  lemma HandleKeepsSkins(cat: Catalogue, uid: u32, p: Player, op: Op)
    requires UniqueIds(p.skins)
    ensures UniqueIds(Handle(cat, uid, p, op).player.skins)
  {
    hide NotifyStatistics, ShipMessages, Leading, AddShip, GiveAllShips, GiveAllSkins, ChangeSkin;
    GiveAllSkinsKeepsUnique(cat, p.skins, p.ships, op.skinOrder);
  }

  lemma HandleKeepsUid(cat: Catalogue, uid: u32, p: Player, op: Op)
    requires OwnUid(uid, p)
    ensures OwnUid(uid, Handle(cat, uid, p, op).player)
  {
    hide NotifyStatistics, ShipMessages, Leading, AddShip, GiveAllShips, GiveAllSkins, ChangeSkin;
  }

  /** Handlers never give a record another player's uid. */
  lemma {:induction false} RunKeepsUid(cat: Catalogue, uid: u32, p: Player, ops: seq<Op>)
    requires OwnUid(uid, p)
    ensures OwnUid(uid, Run(cat, uid, p, ops))
  {
    hide Handle;
    if ops != [] {
      RunKeepsUid(cat, uid, p, ops[..|ops| - 1]);
      HandleKeepsUid(cat, uid, Run(cat, uid, p, ops[..|ops| - 1]), ops[|ops| - 1]);
    }
  }

  /** A sound record: ships in the game data, ids dense exactly while their number fits 32 bits, skins
      without repetition, and a uid that is unset or the player's own. The default record is one. */
  predicate SoundRecord(cat: Catalogue, uid: u32, p: Player) {
    && InCatalogue(cat, p.ships) && UniqueIds(p.skins) && OwnUid(uid, p)
    && (Dense(p.ships) <==> |p.ships| <= MAX_U32)
  }

  lemma DefaultIsSound(cat: Catalogue, uid: u32)
    ensures SoundRecord(cat, uid, DEFAULT_PLAYER)
  {
  }

  /** Every record a player can reach from a sound one is sound. */
  lemma {:induction false} ReachableRecord(cat: Catalogue, uid: u32, origin: Player, ops: seq<Op>)
    requires Keyed(cat) && SoundRecord(cat, uid, origin)
    ensures SoundRecord(cat, uid, Run(cat, uid, origin, ops))
  {
    hide Handle, Print;
    RunKeepsUid(cat, uid, origin, ops);
    var p := Run(cat, uid, origin, ops);
    if ops != [] {
      var before := ops[..|ops| - 1];
      ReachableRecord(cat, uid, origin, before);
      HandleKeepsShips(cat, uid, Run(cat, uid, origin, before), ops[|ops| - 1]);
      HandleKeepsSkins(cat, uid, Run(cat, uid, origin, before), ops[|ops| - 1]);
    }
    if Dense(p.ships) && p.ships != [] {
      assert p.ships[|p.ships| - 1].id == |p.ships|;
    }
  }

  /** In every reachable record the statistics are one entry per owned template, none filtered out. */
  lemma ReachableStatistics(cat: Catalogue, uid: u32, origin: Player, ops: seq<Op>)
    requires Keyed(cat) && SoundRecord(cat, uid, origin)
    ensures var ships := Run(cat, uid, origin, ops).ships;
            && RanksEarliest(ships, Ranked(ships)) && InCatalogue(cat, Ranked(ships))
            && |NotifyStatistics(cat, ships)| == |Ranked(ships)|
            && forall i | 0 <= i < |Ranked(ships)| ::
                 var s, entry := Ranked(ships)[i], NotifyStatistics(cat, ships)[i];
                 && entry.group == cat.templates[Print(s.templateId)].groupType
                 && entry.star == cat.templates[Print(s.templateId)].star
                 && entry.levelMax == s.level && entry.intimacyMax == s.intimacy
  {
    hide Run, Ranked, NotifyStatistics, Print, RanksEarliest;
    var ships := Run(cat, uid, origin, ops).ships;
    ReachableRecord(cat, uid, origin, ops);
    RankedIsEarliestRanking(ships);
    StatisticsMeetSpecification(cat, ships, Ranked(ships));
  }

  // ---- The record itself -------------------------------------------------------------------

  class PlayerInfo {
    var uid: u32
    var nickName: string
    var displayIcon: u32
    var registerTime: u32
    var chatRoomId: u32
    var character: seq<Pair>
    var storyList: seq<u32>
    var ships: seq<Ship>
    var skins: seq<Skin>
    var resources: seq<Pair>

    function Value(): Player
      reads this
    {
      Player(uid, nickName, displayIcon, registerTime, chatRoomId, character, storyList, ships, skins, resources)
    }

    constructor (p: Player)
      ensures Value() == p
    {
      uid, nickName, displayIcon, registerTime := p.uid, p.nickName, p.displayIcon, p.registerTime;
      chatRoomId, character, storyList := p.chatRoomId, p.character, p.storyList;
      ships, skins, resources := p.ships, p.skins, p.resources;
    }

    method AddShip(cat: Catalogue, shipId: u32)
      modifies this`ships
      ensures ships == Inventory.AddShip(cat, old(ships), shipId)
    {
      if Print(shipId) !in cat.templates {
        return;
      }
      var template := cat.templates[Print(shipId)];
      if Print(template.id) !in cat.defaultSkins || Print(cat.defaultSkins[Print(template.id)]) !in cat.skins {
        return;
      }
      var max := 0;
      for i := 0 to |ships|
        invariant max == MaxId(ships[..i])
      {
        assert ships[..i + 1][..i] == ships[..i];
        if ships[i].id > max {
          max := ships[i].id;
        }
      }
      assert ships[..|ships|] == ships;
      ships := ships + [NewShip(template, (max as int + 1) % 0x1_0000_0000)];
    }

    method Init(cat: Catalogue, newUid: u32, name: string, shipId: u32, now: u32)
      modifies this
      ensures Value() == Initialised(cat, old(Value()), newUid, name, shipId, now)
    {
      hide Inventory.AddShip, NOVICE_STORIES, STARTING_RESOURCES;
      uid, nickName, registerTime, displayIcon, chatRoomId := newUid, name, now, shipId, 1;
      storyList := NOVICE_STORIES;
      AddShip(cat, shipId);
      character := [Pair(if ships == [] then 1 else ships[|ships| - 1].id, 0)];
      AddShip(cat, SECOND_SHIP);
      resources := resources + STARTING_RESOURCES;
    }

    /** Keeps the first skin of each id, then adds the missing ones of the ship's group. */
    method AddShipSkin(cat: Catalogue, shipId: u32, order: seq<string>)
      modifies this`skins
      ensures skins == Inventory.AddShipSkin(cat, old(skins), shipId, order)
    {
      hide Print;
      var before, kept, owned := skins, [], {};
      for i := 0 to |before|
        invariant kept == FirstOccurrences(before[..i]) && owned == SkinIds(kept)
      {
        assert before[..i + 1][..i] == before[..i];
        SkinIdsAppend(kept, before[i]);
        if before[i].id !in owned {
          owned, kept := owned + {before[i].id}, kept + [before[i]];
        }
      }
      assert before[..|before|] == before;
      skins := kept;
      if Print(shipId) !in cat.templates {
        return;
      }
      var group := cat.templates[Print(shipId)].groupType;
      for i := 0 to |order|
        invariant skins == AppendSkins(cat, kept, group, order[..i]) && owned == SkinIds(skins)
      {
        assert order[..i + 1][..i] == order[..i];
        if order[i] in cat.skins {
          var skin := cat.skins[order[i]];
          SkinIdsAppend(skins, Skin(skin.id, 0));
          if skin.shipGroup == group && skin.id !in owned {
            owned, skins := owned + {skin.id}, skins + [Skin(skin.id, 0)];
          }
        }
      }
      assert order[..|order|] == order;
    }

    method GiveAllShips(cat: Catalogue, order: seq<string>)
      modifies this`ships
      ensures ships == Inventory.GiveAllShips(cat, old(ships), order)
    {
      hide Print, ParseUnsigned, Inventory.AddShip, TopRarity;
      var owned := TemplateSet(ships);
      ghost var goal := Inventory.GiveAllShips(cat, ships, order);
      for i := 0 to |order|
        invariant goal == GrantAll(cat, ships, owned, order[i..])
      {
        assert order[i..][1..] == order[i + 1..];
        var key := order[i];
        ghost var ships0, owned0 := ships, owned;
        if key in cat.templates && TopRarity(cat.templates[key]) && cat.templates[key].id !in owned {
          owned := owned + {cat.templates[key].id};
          var id := ParseUnsigned(key, MAX_U32);
          if id.Some? {
            AddShip(cat, id.value);
          }
        }
        assert ships == GrantKey(cat, ships0, owned0, key) && owned == OwnedAfter(cat, owned0, key);
      }
    }

    method GiveAllSkins(cat: Catalogue, order: seq<string>)
      modifies this`skins
      ensures skins == Inventory.GiveAllSkins(cat, old(skins), ships, order)
    {
      for i := 0 to |ships|
        invariant skins == Inventory.GiveAllSkins(cat, old(skins), ships[..i], order)
      {
        assert ships[..i + 1][..i] == ships[..i];
        AddShipSkin(cat, ships[i].templateId, order);
      }
      assert ships[..|ships|] == ships;
    }

    method AnswerChat(cat: Catalogue, content: string, op: Op) returns (dirty: bool, out: seq<Message>)
      modifies this`ships, this`skins
      ensures Outcome(Value(), dirty, out) == HandleChat(cat, old(Value()), content, op)
    {
      var command := Leading(TrimStart(content));
      if command == "ship" {
        GiveAllShips(cat, op.shipOrder);
        return true, ShipMessages(ships) + [ServerChat(SHIPS_GIVEN)];
      }
      if command == "skin" {
        GiveAllSkins(cat, op.skinOrder);
        return true, [SkinList(skins), ServerChat(SKINS_GIVEN)];
      }
      return false, [ServerChat(if command == [] then BAD_COMMAND else HELP)];
    }

    method HandlePacket(cat: Catalogue, key: u32, op: Op) returns (dirty: bool, out: seq<Message>)
      modifies this
      ensures Outcome(Value(), dirty, out) == Handle(cat, key, old(Value()), op)
    {
      dirty, out := false, [];
      match op.request {
        case Login(ticket) => out := [LoginReply(uid, ticket)];
        case Create(name, shipId) =>
          Init(cat, key, name, shipId, op.now);
          dirty, out := true, [Created(uid)];
        case LoadData =>
          out := [StatisticsList(NotifyStatistics(cat, ships))] + ShipMessages(ships)
                 + [SkinList(skins), ShipCount(|ships| % 0x1_0000_0000)];
        case Story(storyId) =>
          storyList := storyList + [storyId];
          dirty, out := true, [StoryDone];
        case JoinRoom(roomId) =>
          var room := if roomId == 0 then 1 else roomId;
          if chatRoomId != room {
            chatRoomId, dirty := room, true;
          }
          out := [RoomJoined(room)];
        case SetCharacter(list) =>
          character, dirty, out := list, true, [CharacterSet];
        case SetSkin(shipId, skinId) =>
          var i := FindShip(ships, shipId);
          if i < |ships| {
            ships := ships[i := ships[i].(skinId := skinId)];
          }
          dirty, out := true, [SkinSet];
        case Chat(content) => dirty, out := AnswerChat(cat, content, op);
        case Other =>
      }
    }
  }
}
