/** `notify_statistics` of player_info.rs: a stable sort by template, removal of repeated templates,
    a stable sort by level, then a lookup of each template. */
module Statistics {
  import opened Bytes
  import opened Texts
  import opened Inventory

  datatype Entry = Entry(group: u32, star: u32, levelMax: u32, intimacyMax: u32)

  datatype Key = ByTemplate | ByLevel

  function KeyOf(key: Key, s: Ship): u32 {
    match key
    case ByTemplate => s.templateId
    case ByLevel => s.level
  }

  /** The standard library's stable sort, as the insertion sort that has the same result. */
  function Insert(key: Key, x: Ship, sorted: seq<Ship>): seq<Ship> {
    if sorted == [] || KeyOf(key, x) <= KeyOf(key, sorted[0]) then [x] + sorted
    else [sorted[0]] + Insert(key, x, sorted[1..])
  }

  function StableSort(key: Key, ships: seq<Ship>): seq<Ship> {
    if ships == [] then [] else Insert(key, ships[0], StableSort(key, ships[1..]))
  }

  // ---- The stable sort ---------------------------------------------------------------------

  predicate SortedBy(key: Key, ships: seq<Ship>) {
    forall i, j | 0 <= i < j < |ships| :: KeyOf(key, ships[i]) <= KeyOf(key, ships[j])
  }

  /** The ships with key `k`, in the order of the list. */
  function WithKey(key: Key, k: u32, ships: seq<Ship>): seq<Ship> {
    if ships == [] then []
    else (if KeyOf(key, ships[0]) == k then [ships[0]] else []) + WithKey(key, k, ships[1..])
  }

  /** What is asked of a stable sort: ordered by key, and ships of equal key in their old order. */
  ghost predicate SortsStably(key: Key, ships: seq<Ship>, r: seq<Ship>) {
    SortedBy(key, r) && forall k: u32 :: WithKey(key, k, r) == WithKey(key, k, ships)
  }

  lemma WithKeyCons(key: Key, k: u32, x: Ship, ships: seq<Ship>)
    ensures WithKey(key, k, [x] + ships) == (if KeyOf(key, x) == k then [x] else []) + WithKey(key, k, ships)
  {
    assert ([x] + ships)[1..] == ships;
  }

  lemma {:induction false} InsertKeepsKeys(key: Key, k: u32, x: Ship, sorted: seq<Ship>)
    ensures WithKey(key, k, Insert(key, x, sorted)) == WithKey(key, k, [x] + sorted)
  {
    if sorted != [] && KeyOf(key, x) > KeyOf(key, sorted[0]) {
      var head, rest := sorted[0], sorted[1..];
      InsertKeepsKeys(key, k, x, rest);
      WithKeyCons(key, k, head, Insert(key, x, rest));
      WithKeyCons(key, k, x, rest);
      WithKeyCons(key, k, x, sorted);
    }
  }

  lemma {:induction false} InsertSorts(key: Key, x: Ship, sorted: seq<Ship>)
    requires SortedBy(key, sorted)
    ensures SortedBy(key, Insert(key, x, sorted))
    ensures forall s :: s in Insert(key, x, sorted) <==> s == x || s in sorted
  {
    if sorted != [] && KeyOf(key, x) > KeyOf(key, sorted[0]) {
      var head, r, tail := sorted[0], Insert(key, x, sorted), Insert(key, x, sorted[1..]);
      InsertSorts(key, x, sorted[1..]);
      assert sorted == [head] + sorted[1..];
      forall j | 0 < j < |r|
        ensures KeyOf(key, head) <= KeyOf(key, r[j])
      {
        assert r[j] == tail[j - 1] && tail[j - 1] in tail;
      }
    }
  }

  lemma {:induction false} StableSortSorts(key: Key, ships: seq<Ship>)
    ensures SortsStably(key, ships, StableSort(key, ships))
  {
    if ships != [] {
      var head, tail := ships[0], StableSort(key, ships[1..]);
      StableSortSorts(key, ships[1..]);
      InsertSorts(key, head, tail);
      forall k: u32
        ensures WithKey(key, k, StableSort(key, ships)) == WithKey(key, k, ships)
      {
        InsertKeepsKeys(key, k, head, tail);
        WithKeyCons(key, k, head, tail);
      }
    }
  }

  lemma {:induction false} WithKeyNonempty(key: Key, k: u32, ships: seq<Ship>)
    ensures WithKey(key, k, ships) != [] <==> exists i :: 0 <= i < |ships| && KeyOf(key, ships[i]) == k
  {
    if ships != [] {
      WithKeyNonempty(key, k, ships[1..]);
      assert forall i | 0 < i < |ships| :: ships[i] == ships[1..][i - 1];
      if i :| 0 <= i < |ships[1..]| && KeyOf(key, ships[1..][i]) == k {
        assert KeyOf(key, ships[i + 1]) == k;
      }
    }
  }

  /** Two sorted lists with the same ships of each key begin with the same ship. */
  lemma SameFirst(key: Key, a: seq<Ship>, b: seq<Ship>)
    requires SortedBy(key, a) && SortedBy(key, b) && a != []
    requires forall k: u32 :: WithKey(key, k, a) == WithKey(key, k, b)
    ensures b != [] && a[0] == b[0]
  {
    var k := KeyOf(key, a[0]);
    WithKeyNonempty(key, k, a);
    WithKeyNonempty(key, k, b);
    WithKeyNonempty(key, KeyOf(key, b[0]), a);
    WithKeyNonempty(key, KeyOf(key, b[0]), b);
    assert WithKey(key, k, a)[0] == a[0];
    assert WithKey(key, k, b) == WithKey(key, k, a);
  }

  lemma CancelLeft(head: seq<Ship>, a: seq<Ship>, b: seq<Ship>)
    requires head + a == head + b
    ensures a == b
  {
    assert a == (head + a)[|head|..] && b == (head + b)[|head|..];
  }

  lemma {:induction false} StableSortsAgree(key: Key, a: seq<Ship>, b: seq<Ship>)
    requires SortedBy(key, a) && SortedBy(key, b)
    requires forall k: u32 :: WithKey(key, k, a) == WithKey(key, k, b)
    ensures a == b
  {
    if a == [] {
      if b != [] {
        SameFirst(key, b, a);
      }
    } else {
      SameFirst(key, a, b);
      forall k: u32
        ensures WithKey(key, k, a[1..]) == WithKey(key, k, b[1..])
      {
        var head := if KeyOf(key, a[0]) == k then [a[0]] else [];
        assert head + WithKey(key, k, a[1..]) == WithKey(key, k, a) == WithKey(key, k, b);
        assert WithKey(key, k, b) == head + WithKey(key, k, b[1..]);
        CancelLeft(head, WithKey(key, k, a[1..]), WithKey(key, k, b[1..]));
      }
      StableSortsAgree(key, a[1..], b[1..]);
      assert a == [a[0]] + a[1..] && b == [b[0]] + b[1..];
    }
  }

  /** Every stable sorting algorithm computes this function: the list it gives is the only one that is
      ordered by key and keeps ships of equal key in their old order. */
  lemma StableSortIsTheOnlyOne(key: Key, ships: seq<Ship>, r: seq<Ship>)
    ensures SortsStably(key, ships, r) <==> r == StableSort(key, ships)
  {
    StableSortSorts(key, ships);
    if SortsStably(key, ships, r) {
      forall k: u32
        ensures WithKey(key, k, r) == WithKey(key, k, StableSort(key, ships))
      {
        assert WithKey(key, k, r) == WithKey(key, k, ships);
      }
      StableSortsAgree(key, r, StableSort(key, ships));
    }
  }

  // ---- The statistics list -----------------------------------------------------------------

  /** Of each run of equal templates, the first. */
  function DedupByTemplate(ships: seq<Ship>): seq<Ship>
    decreases |ships|
  {
    if |ships| <= 1 then ships
    else if ships[0].templateId == ships[1].templateId then DedupByTemplate([ships[0]] + ships[2..])
    else [ships[0]] + DedupByTemplate(ships[1..])
  }

  function Ranked(ships: seq<Ship>): seq<Ship> {
    StableSort(ByLevel, DedupByTemplate(StableSort(ByTemplate, ships)))
  }

  function Lookup(cat: Catalogue, ranked: seq<Ship>): seq<Entry> {
    if ranked == [] then []
    else
      var s := ranked[0];
      (if Print(s.templateId) in cat.templates
       then var t := cat.templates[Print(s.templateId)]; [Entry(t.groupType, t.star, s.level, s.intimacy)]
       else [])
      + Lookup(cat, ranked[1..])
  }

  function NotifyStatistics(cat: Catalogue, ships: seq<Ship>): seq<Entry> {
    Lookup(cat, Ranked(ships))
  }

  // ---- The simple specification ------------------------------------------------------------

  predicate Has(ships: seq<Ship>, t: u32) {
    exists i :: 0 <= i < |ships| && ships[i].templateId == t
  }

  /** The earliest ship with template `t`. */
  function Earliest(ships: seq<Ship>, t: u32): Ship
    requires Has(ships, t)
  {
    if ships[0].templateId == t then ships[0] else Earliest(ships[1..], t)
  }

  predicate Before(a: Ship, b: Ship) {
    a.level < b.level || (a.level == b.level && a.templateId < b.templateId)
  }

  predicate InOrder(r: seq<Ship>) {
    forall i, j | 0 <= i < j < |r| :: Before(r[i], r[j])
  }

  /** Exactly the earliest ship of each owned template, ordered by level, then template. */
  ghost predicate RanksEarliest(ships: seq<Ship>, r: seq<Ship>) {
    && InOrder(r)
    && forall s :: s in r <==> Has(ships, s.templateId) && s == Earliest(ships, s.templateId)
  }

  lemma SharesHead(a: seq<Ship>, b: seq<Ship>)
    requires a != [] && forall s :: s in a <==> s in b
    ensures b != []
  {
    assert a[0] in b;
  }

  lemma {:induction false} OrderedListsAgree(a: seq<Ship>, b: seq<Ship>)
    requires InOrder(a) && InOrder(b) && forall s :: s in a <==> s in b
    ensures a == b
  {
    if b != [] {
      SharesHead(b, a);
    }
    if a != [] {
      SharesHead(a, b);
      assert a[0] in b;
      assert b[0] in a;
      assert a[0] == b[0];
      forall s
        ensures s in a[1..] <==> s in b[1..]
      {
        if s in a[1..] {
          var i :| 0 <= i < |a[1..]| && a[1..][i] == s;
          assert a[i + 1] == s && Before(a[0], s);
          assert s in a;
        }
        if s in b[1..] {
          var i :| 0 <= i < |b[1..]| && b[1..][i] == s;
          assert b[i + 1] == s && Before(b[0], s);
          assert s in b;
        }
        assert a == [a[0]] + a[1..] && b == [b[0]] + b[1..];
      }
      OrderedListsAgree(a[1..], b[1..]);
    }
  }

  /** There is only one such list. */
  lemma RankingIsUnique(ships: seq<Ship>, a: seq<Ship>, b: seq<Ship>)
    requires RanksEarliest(ships, a) && RanksEarliest(ships, b)
    ensures a == b
  {
    OrderedListsAgree(a, b);
  }

  // ---- First sort and removal --------------------------------------------------------------

  predicate Sorted(ships: seq<Ship>) {
    forall i, j | 0 <= i < j < |ships| :: ships[i].templateId <= ships[j].templateId
  }

  predicate StrictlySorted(ships: seq<Ship>) {
    forall i, j | 0 <= i < j < |ships| :: ships[i].templateId < ships[j].templateId
  }

  lemma HasCons(x: Ship, ships: seq<Ship>, t: u32)
    ensures Has([x] + ships, t) <==> x.templateId == t || Has(ships, t)
    ensures Has(ships, t) || x.templateId == t ==>
              Earliest([x] + ships, t) == if x.templateId == t then x else Earliest(ships, t)
  {
    var r := [x] + ships;
    assert r[0] == x && r[1..] == ships;
    assert forall i | 0 < i < |r| :: r[i] == ships[i - 1];
    assert forall i | 0 <= i < |ships| :: ships[i] == r[i + 1];
  }

  lemma {:induction false} InsertByTemplate(x: Ship, sorted: seq<Ship>, t: u32)
    requires Sorted(sorted)
    ensures var r := Insert(ByTemplate, x, sorted);
            && Sorted(r) && (Has(r, t) <==> x.templateId == t || Has(sorted, t))
            && (Has(r, t) ==> Earliest(r, t) == if x.templateId == t then x else Earliest(sorted, t))
            && (forall s :: s in r <==> s == x || s in sorted)
  {
    var r := Insert(ByTemplate, x, sorted);
    if sorted == [] || x.templateId <= sorted[0].templateId {
      HasCons(x, sorted, t);
    } else {
      var tail := Insert(ByTemplate, x, sorted[1..]);
      InsertByTemplate(x, sorted[1..], t);
      assert r == [sorted[0]] + tail && sorted == [sorted[0]] + sorted[1..];
      HasCons(sorted[0], tail, t);
      HasCons(sorted[0], sorted[1..], t);
      forall j | 0 < j < |r|
        ensures sorted[0].templateId <= r[j].templateId
      {
        assert r[j] == tail[j - 1] && tail[j - 1] in tail;
      }
    }
  }

  /** Sorting by template keeps the earliest ship of each template earliest. */
  lemma {:induction false} SortByTemplate(ships: seq<Ship>, t: u32)
    ensures var r := StableSort(ByTemplate, ships);
            && Sorted(r) && (Has(r, t) <==> Has(ships, t))
            && (Has(ships, t) ==> Earliest(r, t) == Earliest(ships, t))
  {
    if ships != [] {
      SortByTemplate(ships[1..], t);
      InsertByTemplate(ships[0], StableSort(ByTemplate, ships[1..]), t);
      assert ships == [ships[0]] + ships[1..];
      HasCons(ships[0], ships[1..], t);
    }
  }

  lemma {:induction false} DedupKeepsEarliest(ships: seq<Ship>, s: Ship)
    requires Sorted(ships)
    ensures var r := DedupByTemplate(ships);
            && StrictlySorted(r)
            && (r != [] ==> ships != [] && r[0] == ships[0])
            && (s in r <==> Has(ships, s.templateId) && s == Earliest(ships, s.templateId))
    decreases |ships|
  {
    if |ships| <= 1 {
    } else {
      hide Has, Earliest;
      var first, rest := ships[0], ships[1..];
      assert ships == [first] + rest;
      HasCons(first, rest, s.templateId);
      if ships[0].templateId == ships[1].templateId {
        assert rest == [ships[1]] + ships[2..];
        HasCons(ships[1], ships[2..], s.templateId);
        HasCons(first, ships[2..], s.templateId);
        DedupKeepsEarliest([first] + ships[2..], s);
      } else {
        DedupKeepsEarliest(rest, s);
        var d := DedupByTemplate(rest);
        assert rest[0] == ships[1];
        forall j | 0 <= j < |d|
          ensures first.templateId < d[j].templateId
        {
          assert d[0].templateId <= d[j].templateId;
        }
        EarliestHasTemplate(rest, s.templateId);
      }
    }
  }

  lemma {:induction false} EarliestHasTemplate(ships: seq<Ship>, t: u32)
    ensures Has(ships, t) ==> Earliest(ships, t).templateId == t && Earliest(ships, t) in ships
  {
    if Has(ships, t) && ships[0].templateId != t {
      assert ships == [ships[0]] + ships[1..];
      HasCons(ships[0], ships[1..], t);
      EarliestHasTemplate(ships[1..], t);
    }
  }

  // ---- Second sort -------------------------------------------------------------------------

  lemma {:induction false} InsertByLevel(x: Ship, ordered: seq<Ship>)
    requires InOrder(ordered) && forall i | 0 <= i < |ordered| :: x.templateId < ordered[i].templateId
    ensures var r := Insert(ByLevel, x, ordered);
            InOrder(r) && forall s :: s in r <==> s == x || s in ordered
  {
    var r := Insert(ByLevel, x, ordered);
    if ordered == [] || x.level <= ordered[0].level {
      forall j | 0 <= j < |ordered|
        ensures Before(x, ordered[j])
      {
        assert j > 0 ==> Before(ordered[0], ordered[j]);
      }
    } else {
      var tail := Insert(ByLevel, x, ordered[1..]);
      InsertByLevel(x, ordered[1..]);
      assert r == [ordered[0]] + tail && ordered == [ordered[0]] + ordered[1..];
      forall j | 0 < j < |r|
        ensures Before(r[0], r[j])
      {
        assert r[j] == tail[j - 1] && tail[j - 1] in tail;
        if tail[j - 1] != x {
          var k :| 0 <= k < |ordered[1..]| && ordered[1..][k] == tail[j - 1];
          assert Before(ordered[0], ordered[k + 1]);
        }
      }
    }
  }

  /** Sorting a template-ordered list by level orders it by level, then template. */
  lemma {:induction false} SortByLevel(ships: seq<Ship>)
    requires StrictlySorted(ships)
    ensures var r := StableSort(ByLevel, ships);
            InOrder(r) && forall s :: s in r <==> s in ships
  {
    if ships != [] {
      SortByLevel(ships[1..]);
      var tail := StableSort(ByLevel, ships[1..]);
      forall i | 0 <= i < |tail|
        ensures ships[0].templateId < tail[i].templateId
      {
        assert tail[i] in ships[1..];
      }
      InsertByLevel(ships[0], tail);
      assert ships == [ships[0]] + ships[1..];
    }
  }

  // ---- Main results ------------------------------------------------------------------------

  /** Sort, dedup, sort computes the simple specification. */
  lemma RankedIsEarliestRanking(ships: seq<Ship>)
    ensures RanksEarliest(ships, Ranked(ships))
  {
    var sorted := StableSort(ByTemplate, ships);
    var d := DedupByTemplate(sorted);
    SortByTemplate(ships, 0);
    forall s: Ship
      ensures StrictlySorted(d)
      ensures s in d <==> Has(ships, s.templateId) && s == Earliest(ships, s.templateId)
    {
      SortByTemplate(ships, s.templateId);
      DedupKeepsEarliest(sorted, s);
    }
    assert StrictlySorted(d) by {
      DedupKeepsEarliest(sorted, Ship(0, 0, 0, 0, 0, [], [], 0, 0));
    }
    SortByLevel(d);
  }

  function EntryOf(cat: Catalogue, s: Ship): Entry
    requires Print(s.templateId) in cat.templates
  {
    var t := cat.templates[Print(s.templateId)];
    Entry(t.groupType, t.star, s.level, s.intimacy)
  }

  lemma {:induction false} LookupKeepsAll(cat: Catalogue, ranked: seq<Ship>)
    requires InCatalogue(cat, ranked)
    ensures var r := Lookup(cat, ranked);
            |r| == |ranked| && forall i | 0 <= i < |r| :: r[i] == EntryOf(cat, ranked[i])
  {
    hide Print;
    if ranked != [] {
      assert InCatalogue(cat, ranked[1..]);
      LookupKeepsAll(cat, ranked[1..]);
    }
  }

  /** The statistics list one entry for the earliest ship of each owned template, in the order of
      (level, template), and the lookup filters nothing out. */
  lemma StatisticsMeetSpecification(cat: Catalogue, ships: seq<Ship>, r: seq<Ship>)
    requires InCatalogue(cat, ships) && RanksEarliest(ships, r)
    ensures InCatalogue(cat, r)
    ensures var stats := NotifyStatistics(cat, ships);
            |stats| == |r| && forall i | 0 <= i < |r| ::
              var t := cat.templates[Print(r[i].templateId)];
              && stats[i].group == t.groupType && stats[i].star == t.star
              && stats[i].levelMax == r[i].level && stats[i].intimacyMax == r[i].intimacy
  {
    RankedIsEarliestRanking(ships);
    RankingIsUnique(ships, r, Ranked(ships));
    hide Print, Ranked;
    forall i | 0 <= i < |r|
      ensures Print(r[i].templateId) in cat.templates
    {
      assert r[i] in r;
      EarliestHasTemplate(ships, r[i].templateId);
      var k :| 0 <= k < |ships| && ships[k] == r[i];
    }
    LookupKeepsAll(cat, r);
  }
}
