/** Ships and skins of one player (player_info.rs, give_all_ships and give_all_skins of game/mod.rs).
    The game data are hash maps, so every pass over one takes its iteration order as a parameter. */
module Inventory {
  import opened Wrappers
  import opened Bytes
  import opened Texts

  datatype ShipTemplate = ShipTemplate(
    id: u32, groupType: u32, star: u32, starMax: u32, energy: u32, buffs: seq<u32>, equips: seq<u32>)

  datatype SkinTemplate = SkinTemplate(id: u32, shipGroup: u32)

  /** The game data: ship templates, the default skin of each ship, and skin templates. */
  datatype Catalogue = Catalogue(
    templates: map<string, ShipTemplate>, defaultSkins: map<string, u32>, skins: map<string, SkinTemplate>)

  /** Ship templates are keyed by the decimal of their id. */
  predicate Keyed(cat: Catalogue) {
    forall k | k in cat.templates :: k == Print(cat.templates[k].id)
  }

  datatype Ship = Ship(
    id: u32, templateId: u32, level: u32, energy: u32, intimacy: u32, skills: seq<u32>, equips: seq<u32>,
    skinId: u32, propose: u32)

  datatype Skin = Skin(id: u32, time: u32)

  // ---- Granting one ship -------------------------------------------------------------------

  const MAX_U32: nat := 0xFFFF_FFFF

  function MaxId(ships: seq<Ship>): u32 {
    if ships == [] then 0
    else
      var rest := MaxId(ships[..|ships| - 1]);
      if ships[|ships| - 1].id > rest then ships[|ships| - 1].id else rest
  }

  /** One more than the largest id in use, wrapping around. */
  function NextId(ships: seq<Ship>): u32 {
    (MaxId(ships) + 1) % 0x1_0000_0000
  }

  /** The template, its statistics and its default skin must all exist. */
  predicate Grantable(cat: Catalogue, shipId: u32) {
    && Print(shipId) in cat.templates
    && var templateKey := Print(cat.templates[Print(shipId)].id);
       templateKey in cat.defaultSkins && Print(cat.defaultSkins[templateKey]) in cat.skins
  }

  function NewShip(t: ShipTemplate, id: u32): Ship {
    Ship(id, t.id, 1, t.energy, 10000, t.buffs, t.equips + [0, 0], 0, 1)
  }

  function AddShip(cat: Catalogue, ships: seq<Ship>, shipId: u32): seq<Ship> {
    if Grantable(cat, shipId) then ships + [NewShip(cat.templates[Print(shipId)], NextId(ships))] else ships
  }

  lemma {:induction false} MaxIdIsLargest(ships: seq<Ship>)
    ensures forall i | 0 <= i < |ships| :: ships[i].id <= MaxId(ships)
    ensures MaxId(ships) > 0 ==> exists i :: 0 <= i < |ships| && ships[i].id == MaxId(ships)
  {
    if ships != [] {
      var front, last := ships[..|ships| - 1], ships[|ships| - 1];
      MaxIdIsLargest(front);
      if MaxId(ships) != last.id {
        var i :| MaxId(front) > 0 ==> 0 <= i < |front| && front[i].id == MaxId(front);
        assert MaxId(ships) > 0 ==> ships[i].id == MaxId(ships);
      }
    }
  }

  /** A ship as it is handed out: level 1, full affection, the template's energy and skills, its
      equipment followed by two empty slots, the default skin, pledged. */
  predicate FreshShip(t: ShipTemplate, s: Ship) {
    && s.templateId == t.id && s.level == 1 && s.energy == t.energy && s.intimacy == 10000
    && s.skills == t.buffs && |s.equips| == |t.equips| + 2
    && (forall i | 0 <= i < |t.equips| :: s.equips[i] == t.equips[i])
    && s.equips[|t.equips|] == 0 && s.equips[|t.equips| + 1] == 0
    && s.skinId == 0 && s.propose == 1
  }

  /** Granting one ship appends it, as a fresh ship with an id one above every id in use (0 after the
      largest possible one), exactly when its template, statistics and default skin all exist. */
  lemma AddShipAppendsFreshShip(cat: Catalogue, ships: seq<Ship>, shipId: u32)
    ensures var r, key := AddShip(cat, ships, shipId), Print(shipId);
            if key in cat.templates
               && Print(cat.templates[key].id) in cat.defaultSkins
               && Print(cat.defaultSkins[Print(cat.templates[key].id)]) in cat.skins
            then
              && |r| == |ships| + 1 && ships <= r && FreshShip(cat.templates[key], r[|ships|])
              && (forall i | 0 <= i < |ships| :: r[|ships|].id > ships[i].id || r[|ships|].id == 0)
              && (|| r[|ships|].id == 1
                  || exists i :: 0 <= i < |ships| && (ships[i].id + 1) % 0x1_0000_0000 == r[|ships|].id)
            else r == ships
  {
    hide Print;
    MaxIdIsLargest(ships);
    var r := AddShip(cat, ships, shipId);
    if r != ships && MaxId(ships) > 0 {
      var i :| 0 <= i < |ships| && ships[i].id == MaxId(ships);
      assert (ships[i].id + 1) % 0x1_0000_0000 == r[|ships|].id;
    }
  }

  /** The ship at index i has id i + 1. */
  predicate Dense(ships: seq<Ship>) {
    forall i | 0 <= i < |ships| :: ships[i].id == i + 1
  }

  lemma {:induction false} DenseMax(ships: seq<Ship>)
    requires Dense(ships)
    ensures MaxId(ships) == |ships|
  {
    if ships != [] {
      DenseMax(ships[..|ships| - 1]);
    }
  }

  /** Ids stay dense exactly as long as the count fits 32 bits; the next one wraps to 0. */
  lemma AddShipKeepsDense(cat: Catalogue, ships: seq<Ship>, shipId: u32)
    requires Dense(ships)
    ensures Dense(AddShip(cat, ships, shipId)) <==> |AddShip(cat, ships, shipId)| <= MAX_U32
  {
    hide Grantable;
    DenseMax(ships);
    var r := AddShip(cat, ships, shipId);
    if r != ships {
      assert r[|ships|].id == NextId(ships);
    }
  }

  /** Every ship's template is in the game data. */
  predicate InCatalogue(cat: Catalogue, ships: seq<Ship>) {
    forall i | 0 <= i < |ships| :: Print(ships[i].templateId) in cat.templates
  }

  // ---- Changing a skin ---------------------------------------------------------------------

  /** The first ship with the given id, or the number of ships. */
  function FindShip(ships: seq<Ship>, shipId: u32): (i: nat)
    ensures i <= |ships| && (i < |ships| ==> ships[i].id == shipId)
    ensures forall k | 0 <= k < i :: ships[k].id != shipId
  {
    if ships == [] || ships[0].id == shipId then 0 else 1 + FindShip(ships[1..], shipId)
  }

  function ChangeSkin(ships: seq<Ship>, shipId: u32, skinId: u32): seq<Ship> {
    var i := FindShip(ships, shipId);
    if i < |ships| then ships[i := ships[i].(skinId := skinId)] else ships
  }

  /** On dense ids a skin change for ship k touches exactly index k - 1, or nothing. */
  lemma ChangeSkinHitsOneShip(ships: seq<Ship>, shipId: u32, skinId: u32)
    requires Dense(ships)
    ensures var r := ChangeSkin(ships, shipId, skinId);
            && |r| == |ships| && Dense(r)
            && (forall i | 0 <= i < |r| ::
                  r[i] == if i == shipId - 1 then ships[i].(skinId := skinId) else ships[i])
  {
    var i := FindShip(ships, shipId);
    if 1 <= shipId <= |ships| {
      assert ships[shipId - 1].id == shipId;
    }
  }

  /** Whatever the ids, the first ship with the given id gets the skin and nothing else changes. */
  lemma ChangeSkinHitsFirst(ships: seq<Ship>, shipId: u32, skinId: u32)
    ensures var r := ChangeSkin(ships, shipId, skinId);
            && |r| == |ships|
            && forall i | 0 <= i < |r| ::
                 r[i] == if ships[i].id == shipId && forall k | 0 <= k < i :: ships[k].id != shipId
                         then ships[i].(skinId := skinId) else ships[i]
  {
  }

  // ---- Granting every ship -----------------------------------------------------------------

  predicate TopRarity(t: ShipTemplate) {
    t.star == t.starMax && t.star >= 5
  }

  function TemplateSet(ships: seq<Ship>): set<u32> {
    set i | 0 <= i < |ships| :: ships[i].templateId
  }

  /** An order in which a hash map may be walked: every key once. */
  predicate Walks<T>(order: seq<string>, m: map<string, T>) {
    && (forall i | 0 <= i < |order| :: order[i] in m)
    && (forall k | k in m :: k in order)
    && (forall i, j | 0 <= i < j < |order| :: order[i] != order[j])
  }

  /** One turn of the granting loop; `owned` is the hash set of templates seen so far. */
  predicate GrantsAt(cat: Catalogue, owned: set<u32>, key: string) {
    && key in cat.templates
    && TopRarity(cat.templates[key]) && cat.templates[key].id !in owned
  }

  function GrantKey(cat: Catalogue, ships: seq<Ship>, owned: set<u32>, key: string): seq<Ship> {
    if !GrantsAt(cat, owned, key) then ships
    else match ParseUnsigned(key, MAX_U32)
      case Some(id) => AddShip(cat, ships, id)
      case None => ships
  }

  function OwnedAfter(cat: Catalogue, owned: set<u32>, key: string): set<u32> {
    if GrantsAt(cat, owned, key) then owned + {cat.templates[key].id} else owned
  }

  function GrantAll(cat: Catalogue, ships: seq<Ship>, owned: set<u32>, order: seq<string>): seq<Ship>
    decreases |order|
  {
    if order == [] then ships
    else GrantAll(cat, GrantKey(cat, ships, owned, order[0]), OwnedAfter(cat, owned, order[0]), order[1..])
  }

  function GiveAllShips(cat: Catalogue, ships: seq<Ship>, order: seq<string>): seq<Ship> {
    GrantAll(cat, ships, TemplateSet(ships), order)
  }

  /** Every template the command can hand out. */
  function Eligible(cat: Catalogue): set<u32> {
    set k | k in cat.templates && TopRarity(cat.templates[k]) && Grantable(cat, cat.templates[k].id)
      :: cat.templates[k].id
  }

  /** A template can be handed out exactly if it is of the highest stage with at least five stars, and has
      statistics and a skin. */
  lemma EligibleMeans(cat: Catalogue, id: u32)
    requires Keyed(cat)
    ensures id in Eligible(cat) <==>
            && Print(id) in cat.templates
            && cat.templates[Print(id)].star == cat.templates[Print(id)].starMax && cat.templates[Print(id)].star >= 5
            && Print(id) in cat.defaultSkins && Print(cat.defaultSkins[Print(id)]) in cat.skins
  {
    if Print(id) in cat.templates {
      ParseUndoesPrint(id, MAX_U32);
      ParseUndoesPrint(cat.templates[Print(id)].id, MAX_U32);
      assert cat.templates[Print(id)].id == id;
    }
    hide Print, ParseUnsigned;
    if id in Eligible(cat) {
      var k :| k in cat.templates && TopRarity(cat.templates[k]) && Grantable(cat, cat.templates[k].id)
               && cat.templates[k].id == id;
      assert k == Print(id);
    }
  }

  /** The ships from `from` on are new: distinct eligible templates that were not owned. */
  predicate FreshGrants(cat: Catalogue, owned: set<u32>, ships: seq<Ship>, from: nat) {
    && (forall i | from <= i < |ships| :: ships[i].templateId !in owned && ships[i].templateId in Eligible(cat))
    && (forall i, j | from <= i < j < |ships| :: ships[i].templateId != ships[j].templateId)
  }

  lemma GrantKeyGrants(cat: Catalogue, ships: seq<Ship>, owned: set<u32>, key: string)
    requires Keyed(cat) && key in cat.templates
    ensures var r := GrantKey(cat, ships, owned, key);
            var id := cat.templates[key].id;
            if GrantsAt(cat, owned, key) && id in Eligible(cat)
            then r == ships + [NewShip(cat.templates[key], NextId(ships))]
            else r == ships
  {
    var t := cat.templates[key];
    ParseUndoesPrint(t.id, MAX_U32);
    hide Print, ParseUnsigned, DigitsValue, AllDigits, Trim;
    if GrantsAt(cat, owned, key) && t.id in Eligible(cat) {
      var k :| k in cat.templates && TopRarity(cat.templates[k]) && Grantable(cat, cat.templates[k].id)
               && cat.templates[k].id == t.id;
      assert k == key;
    }
  }

  /** If the template can be handed out at all, it was owned or is among the ships from `from` on. */
  predicate Handed(cat: Catalogue, owned: set<u32>, ships: seq<Ship>, from: nat, id: u32) {
    id in Eligible(cat) ==> id in owned || exists j :: from <= j < |ships| && ships[j].templateId == id
  }

  lemma {:induction false} GrantAllGrants(cat: Catalogue, ships: seq<Ship>, owned: set<u32>, order: seq<string>)
    requires Keyed(cat) && (forall i | 0 <= i < |order| :: order[i] in cat.templates)
    ensures var r := GrantAll(cat, ships, owned, order);
            && ships <= r && FreshGrants(cat, owned, r, |ships|)
            && (forall i | 0 <= i < |order| && TopRarity(cat.templates[order[i]]) ::
                  Handed(cat, owned, r, |ships|, cat.templates[order[i]].id))
    decreases |order|
  {
    hide Eligible, TopRarity, NextId, Print, AddShip, GrantKey;
    if order != [] {
      var key := order[0];
      var s1, o1 := GrantKey(cat, ships, owned, key), OwnedAfter(cat, owned, key);
      GrantKeyGrants(cat, ships, owned, key);
      GrantAllGrants(cat, s1, o1, order[1..]);
      var r := GrantAll(cat, s1, o1, order[1..]);
      assert forall i | 0 <= i < |s1| :: r[i] == s1[i];
      assert forall i | 0 < i < |order| :: order[i] == order[1..][i - 1];
      assert |s1| > |ships| ==> r[|ships|].templateId == cat.templates[key].id;
    }
  }

  lemma {:induction false} GrantsAreFresh(cat: Catalogue, ships: seq<Ship>, owned: set<u32>, order: seq<string>)
    requires Keyed(cat)
    ensures var r := GrantAll(cat, ships, owned, order);
            && ships <= r
            && forall i | |ships| <= i < |r| ::
                 Print(r[i].templateId) in cat.templates && FreshShip(cat.templates[Print(r[i].templateId)], r[i])
    decreases |order|
  {
    hide Print, ParseUnsigned, Grantable, FreshShip, NextId;
    if order != [] {
      var key := order[0];
      var next := GrantKey(cat, ships, owned, key);
      if next != ships {
        var id := ParseUnsigned(key, MAX_U32).value;
        AddShipAppendsFreshShip(cat, ships, id);
        assert next == AddShip(cat, ships, id);
        FreshHasTemplate(cat, Print(id), next[|ships|]);
      }
      GrantsAreFresh(cat, next, OwnedAfter(cat, owned, key), order[1..]);
    }
  }

  lemma FreshHasTemplate(cat: Catalogue, key: string, s: Ship)
    requires Keyed(cat) && key in cat.templates && FreshShip(cat.templates[key], s)
    ensures Print(s.templateId) == key
  {
  }

  /** Every ship the command hands out is fresh, with the contents of its own template. */
  lemma GiveAllShipsGivesFreshShips(cat: Catalogue, ships: seq<Ship>, order: seq<string>)
    requires Keyed(cat)
    ensures var r := GiveAllShips(cat, ships, order);
            && ships <= r
            && forall i | |ships| <= i < |r| ::
                 Print(r[i].templateId) in cat.templates && FreshShip(cat.templates[Print(r[i].templateId)], r[i])
  {
    GrantsAreFresh(cat, ships, TemplateSet(ships), order);
  }

  /** Whatever the iteration order: old ships are kept, each missing eligible template is added
      exactly once, and nothing else is. */
  lemma GiveAllShipsIsOrderIndependent(cat: Catalogue, ships: seq<Ship>, order: seq<string>)
    requires Keyed(cat) && Walks(order, cat.templates)
    ensures var r := GiveAllShips(cat, ships, order);
            && ships <= r && FreshGrants(cat, TemplateSet(ships), r, |ships|)
            && TemplateSet(r) == TemplateSet(ships) + Eligible(cat)
  {
    GrantAllGrants(cat, ships, TemplateSet(ships), order);
    var r := GiveAllShips(cat, ships, order);
    forall id | id in TemplateSet(ships)
      ensures id in TemplateSet(r)
    {
      var i :| 0 <= i < |ships| && ships[i].templateId == id;
      assert r[i].templateId == id;
    }
    forall id | id in Eligible(cat)
      ensures id in TemplateSet(r)
    {
      var k :| k in cat.templates && TopRarity(cat.templates[k]) && Grantable(cat, cat.templates[k].id)
               && cat.templates[k].id == id;
      assert k in order;
      var i :| 0 <= i < |order| && order[i] == k;
      assert Handed(cat, TemplateSet(ships), r, |ships|, cat.templates[order[i]].id);
    }
    forall id | id in TemplateSet(r)
      ensures id in TemplateSet(ships) + Eligible(cat)
    {
      var i :| 0 <= i < |r| && r[i].templateId == id;
      if i < |ships| {
        assert ships[i] == r[i];
      }
    }
  }

  /** A second command changes nothing, in any order. */
  lemma GiveAllShipsIsIdempotent(cat: Catalogue, ships: seq<Ship>, order: seq<string>, again: seq<string>)
    requires Keyed(cat) && Walks(order, cat.templates) && Walks(again, cat.templates)
    ensures var r := GiveAllShips(cat, ships, order);
            GiveAllShips(cat, r, again) == r
  {
    GiveAllShipsIsOrderIndependent(cat, ships, order);
    var r := GiveAllShips(cat, ships, order);
    GiveAllShipsIsOrderIndependent(cat, r, again);
    var s := GiveAllShips(cat, r, again);
    if r != s {
      FreshGrantWasMissing(cat, TemplateSet(r), s, |r|);
    }
  }

  lemma FreshGrantWasMissing(cat: Catalogue, owned: set<u32>, ships: seq<Ship>, from: nat)
    requires from < |ships| && FreshGrants(cat, owned, ships, from)
    ensures !(Eligible(cat) <= owned)
  {
    assert ships[from].templateId in Eligible(cat) - owned;
  }

  // ---- Granting skins ----------------------------------------------------------------------

  function SkinIds(skins: seq<Skin>): set<u32> {
    set i | 0 <= i < |skins| :: skins[i].id
  }

  predicate UniqueIds(skins: seq<Skin>) {
    forall i, j | 0 <= i < j < |skins| :: skins[i].id != skins[j].id
  }

  /** The first skin of each id, in order and unchanged. */
  function FirstOccurrences(skins: seq<Skin>): seq<Skin> {
    if skins == [] then []
    else
      var front, last := FirstOccurrences(skins[..|skins| - 1]), skins[|skins| - 1];
      if last.id in SkinIds(front) then front else front + [last]
  }

  function AppendSkins(cat: Catalogue, skins: seq<Skin>, group: u32, order: seq<string>): seq<Skin>
    decreases |order|
  {
    if order == [] then skins
    else
      var last := order[|order| - 1];
      var front := AppendSkins(cat, skins, group, order[..|order| - 1]);
      if last in cat.skins && cat.skins[last].shipGroup == group && cat.skins[last].id !in SkinIds(front)
      then front + [Skin(cat.skins[last].id, 0)]
      else front
  }

  /** `add_ship_skin`: drop repeated ids, then add every skin of the ship's group. */
  function AddShipSkin(cat: Catalogue, skins: seq<Skin>, shipId: u32, order: seq<string>): seq<Skin> {
    if Print(shipId) in cat.templates
    then AppendSkins(cat, FirstOccurrences(skins), cat.templates[Print(shipId)].groupType, order)
    else FirstOccurrences(skins)
  }

  function GiveAllSkins(cat: Catalogue, skins: seq<Skin>, ships: seq<Ship>, order: seq<string>): seq<Skin> {
    if ships == [] then skins
    else AddShipSkin(cat, GiveAllSkins(cat, skins, ships[..|ships| - 1], order), ships[|ships| - 1].templateId, order)
  }

  /** Ids of all skins in the group of one template. */
  function GroupSkinIds(cat: Catalogue, templateId: u32): set<u32> {
    if Print(templateId) in cat.templates
    then set k | k in cat.skins && cat.skins[k].shipGroup == cat.templates[Print(templateId)].groupType
           :: cat.skins[k].id
    else {}
  }

  function OwnedGroupSkinIds(cat: Catalogue, ships: seq<Ship>): set<u32> {
    set i, id | 0 <= i < |ships| && id in GroupSkinIds(cat, ships[i].templateId) :: id
  }

  lemma SkinIdsAppend(skins: seq<Skin>, s: Skin)
    ensures SkinIds(skins + [s]) == SkinIds(skins) + {s.id}
    ensures UniqueIds(skins) && s.id !in SkinIds(skins) ==> UniqueIds(skins + [s])
  {
    var r := skins + [s];
    assert forall i | 0 <= i < |skins| :: r[i] == skins[i];
    assert r[|skins|] == s;
  }

  lemma {:induction false} FirstOccurrencesDedup(skins: seq<Skin>)
    ensures var r := FirstOccurrences(skins);
            UniqueIds(r) && SkinIds(r) == SkinIds(skins) && (UniqueIds(skins) ==> r == skins)
  {
    if skins != [] {
      var front, last := skins[..|skins| - 1], skins[|skins| - 1];
      FirstOccurrencesDedup(front);
      assert skins == front + [last];
      SkinIdsAppend(front, last);
      SkinIdsAppend(FirstOccurrences(front), last);
    }
  }

  lemma {:induction false} AppendSkinsAdds(cat: Catalogue, skins: seq<Skin>, group: u32, order: seq<string>)
    requires UniqueIds(skins)
    ensures var r := AppendSkins(cat, skins, group, order);
            && skins <= r && UniqueIds(r)
            && (forall id :: id in SkinIds(r) <==>
                  id in SkinIds(skins)
                  || exists i :: 0 <= i < |order| && order[i] in cat.skins
                                 && cat.skins[order[i]].shipGroup == group && cat.skins[order[i]].id == id)
    decreases |order|
  {
    if order != [] {
      var front := order[..|order| - 1];
      var last := order[|order| - 1];
      AppendSkinsAdds(cat, skins, group, front);
      var f := AppendSkins(cat, skins, group, front);
      assert order == front + [last];
      if last in cat.skins {
        SkinIdsAppend(f, Skin(cat.skins[last].id, 0));
      }
    }
  }

  lemma AddShipSkinAdds(cat: Catalogue, skins: seq<Skin>, shipId: u32, order: seq<string>)
    requires Walks(order, cat.skins)
    ensures var r := AddShipSkin(cat, skins, shipId, order);
            && FirstOccurrences(skins) <= r && UniqueIds(r)
            && SkinIds(r) == SkinIds(skins) + GroupSkinIds(cat, shipId)
  {
    hide Print;
    FirstOccurrencesDedup(skins);
    if Print(shipId) in cat.templates {
      var group := cat.templates[Print(shipId)].groupType;
      AppendSkinsAdds(cat, FirstOccurrences(skins), group, order);
      forall id | id in GroupSkinIds(cat, shipId)
        ensures id in SkinIds(AddShipSkin(cat, skins, shipId, order))
      {
        var k :| k in cat.skins && cat.skins[k].shipGroup == group && cat.skins[k].id == id;
        assert k in order;
        var i :| 0 <= i < |order| && order[i] == k;
      }
    }
  }

  /** With at least one ship: ids become unique, the first occurrences of the old skins stay in front
      unchanged, and the ids are the old ones plus every skin of an owned ship's group. */
  lemma {:induction false} GiveAllSkinsGives(cat: Catalogue, skins: seq<Skin>, ships: seq<Ship>, order: seq<string>)
    requires Walks(order, cat.skins) && ships != []
    ensures var r := GiveAllSkins(cat, skins, ships, order);
            && UniqueIds(r) && FirstOccurrences(skins) <= r
            && SkinIds(r) == SkinIds(skins) + OwnedGroupSkinIds(cat, ships)
  {
    var front, last := ships[..|ships| - 1], ships[|ships| - 1];
    var f := GiveAllSkins(cat, skins, front, order);
    AddShipSkinAdds(cat, f, last.templateId, order);
    FirstOccurrencesDedup(f);
    OwnedGroupsSplit(cat, ships);
    if front == [] {
      assert OwnedGroupSkinIds(cat, front) == {};
    } else {
      GiveAllSkinsGives(cat, skins, front, order);
    }
  }

  /** Every skin the command adds is permanent: it carries no expiry time. */
  lemma {:induction false} AddedSkinsArePermanent(cat: Catalogue, skins: seq<Skin>, ships: seq<Ship>,
                                                  order: seq<string>)
    ensures forall s | s in GiveAllSkins(cat, skins, ships, order) :: s in skins || s.time == 0
  {
    hide Print;
    if ships != [] {
      var front := GiveAllSkins(cat, skins, ships[..|ships| - 1], order);
      AddedSkinsArePermanent(cat, skins, ships[..|ships| - 1], order);
      FirstOccurrencesAreOld(front);
      var key := Print(ships[|ships| - 1].templateId);
      if key in cat.templates {
        AppendedSkinsArePermanent(cat, FirstOccurrences(front), cat.templates[key].groupType, order);
      }
    }
  }

  lemma {:induction false} FirstOccurrencesAreOld(skins: seq<Skin>)
    ensures forall s | s in FirstOccurrences(skins) :: s in skins
  {
    if skins != [] {
      FirstOccurrencesAreOld(skins[..|skins| - 1]);
    }
  }

  lemma {:induction false} AppendedSkinsArePermanent(cat: Catalogue, skins: seq<Skin>, group: u32, order: seq<string>)
    ensures forall s | s in AppendSkins(cat, skins, group, order) :: s in skins || s.time == 0
    decreases |order|
  {
    if order != [] {
      AppendedSkinsArePermanent(cat, skins, group, order[..|order| - 1]);
    }
  }

  lemma OwnedGroupsSplit(cat: Catalogue, ships: seq<Ship>)
    requires ships != []
    ensures OwnedGroupSkinIds(cat, ships) ==
            OwnedGroupSkinIds(cat, ships[..|ships| - 1]) + GroupSkinIds(cat, ships[|ships| - 1].templateId)
  {
    hide GroupSkinIds;
    var front := ships[..|ships| - 1];
    assert forall i | 0 <= i < |front| :: ships[i] == front[i];
  }

  lemma GrowthAddsId(before: seq<Skin>, after: seq<Skin>)
    requires before < after && UniqueIds(after)
    ensures after[|before|].id in SkinIds(after) && after[|before|].id !in SkinIds(before)
  {
    assert forall i | 0 <= i < |before| :: before[i] == after[i];
  }

  lemma UniqueGrowthIsNothing(before: seq<Skin>, after: seq<Skin>)
    requires before <= after && UniqueIds(after) && SkinIds(after) == SkinIds(before)
    ensures after == before
  {
    if before != after {
      GrowthAddsId(before, after);
    }
  }

  /** A second command changes nothing, in any order. */
  lemma GiveAllSkinsIsIdempotent(
      cat: Catalogue, skins: seq<Skin>, ships: seq<Ship>, order: seq<string>, again: seq<string>)
    requires Walks(order, cat.skins) && Walks(again, cat.skins)
    ensures var r := GiveAllSkins(cat, skins, ships, order);
            GiveAllSkins(cat, r, ships, again) == r
  {
    if ships != [] {
      var r := GiveAllSkins(cat, skins, ships, order);
      GiveAllSkinsGives(cat, skins, ships, order);
      GiveAllSkinsGives(cat, r, ships, again);
      FirstOccurrencesDedup(r);
      UniqueGrowthIsNothing(r, GiveAllSkins(cat, r, ships, again));
    }
  }

  // ---- Sending ships in chunks -------------------------------------------------------------

  const CHUNK: nat := 100

  function Chunks(ships: seq<Ship>): seq<seq<Ship>> {
    if |ships| == 0 then []
    else if |ships| <= CHUNK then [ships]
    else [ships[..CHUNK]] + Chunks(ships[CHUNK..])
  }

  /** The first list always goes out, even empty; the rest only if there are any. */
  function NotifyShips(ships: seq<Ship>): (seq<Ship>, Option<seq<seq<Ship>>>) {
    var chunks := Chunks(ships);
    if chunks == [] then ([], None)
    else (chunks[0], if |chunks| == 1 then None else Some(chunks[1..]))
  }

  function PushedLists(ships: seq<Ship>): seq<seq<Ship>> {
    var (first, rest) := NotifyShips(ships);
    [first] + (if rest.Some? then rest.value else [])
  }

  lemma {:induction false} ChunksPartition(ships: seq<Ship>)
    ensures var c := Chunks(ships);
            && Flatten(c) == ships && |c| == (|ships| + CHUNK - 1) / CHUNK
            && (forall i | 0 <= i < |c| - 1 :: |c[i]| == CHUNK)
            && (c != [] ==> 1 <= |c[|c| - 1]| <= CHUNK)
  {
    if |ships| > CHUNK {
      ChunksPartition(ships[CHUNK..]);
      var c := Chunks(ships);
      assert c[1..] == Chunks(ships[CHUNK..]);
      assert ships == ships[..CHUNK] + ships[CHUNK..];
    } else if ships != [] {
      assert [ships][1..] == [];
      assert Flatten([ships]) == ships + Flatten([ships][1..]);
    }
  }

  /** Sending loses nothing: the lists put together are the ships, all but the last hold exactly 100,
      and there are max(1, ceil(n / 100)) of them. */
  lemma PushedListsLoseNothing(ships: seq<Ship>)
    ensures var lists := PushedLists(ships);
            && Flatten(lists) == ships
            && |lists| == (if |ships| == 0 then 1 else (|ships| + 99) / 100)
            && (forall i | 0 <= i < |lists| - 1 :: |lists[i]| == 100)
            && |lists[|lists| - 1]| <= 100
  {
    ChunksPartition(ships);
    var c, lists := Chunks(ships), PushedLists(ships);
    if ships == [] {
      assert lists[1..] == [] && Flatten(lists) == lists[0] + Flatten(lists[1..]);
    } else {
      assert lists == c;
    }
  }
}
