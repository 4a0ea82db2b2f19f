/**
 Leaderboard pages: rows are ranked by points, wins, matches and account id, filtered by region,
 and cut into pages by limit and offset. One request reads one snapshot of the table.
 */
module Leaderboard {
  import opened Wrappers
  import opened Sorting

  /** Account ids stand for the order of their canonical text. */
  type Account = nat

  datatype Standing = Standing(points: int, wins: nat, matches: nat, region: string, active: bool)

  type Table = map<Account, Standing>

  const UNRANKED: Standing := Standing(0, 0, 0, "global", false)

  function StandingOf(t: Table, a: Account): Standing { if a in t then t[a] else UNRANKED }

  /** More points, then more wins, then more matches, then the smaller account id. */
  predicate Outranks(t: Table, a: Account, b: Account) {
    var x, y := StandingOf(t, a), StandingOf(t, b);
    if x.points != y.points then x.points > y.points
    else if x.wins != y.wins then x.wins > y.wins
    else if x.matches != y.matches then x.matches > y.matches
    else a < b
  }

  function ByRank(t: Table): (Account, Account) -> bool { (a: Account, b: Account) => Outranks(t, a, b) }

  datatype Entry = Entry(rank: nat, account: Account)

  function ByPosition(): (Entry, Entry) -> bool {
    (x: Entry, y: Entry) => x.rank < y.rank || (x.rank == y.rank && x.account < y.account)
  }

  lemma ByRankIsOrder(t: Table)
    ensures StrictOrder(ByRank(t))
  {
  }

  lemma ByPositionIsOrder()
    ensures StrictOrder(ByPosition())
  {
  }

  // ---------------------------------------------------------------- the query

  predicate Shown(t: Table, region: Option<string>, a: Account) {
    StandingOf(t, a).active && (region.None? || StandingOf(t, a).region == region.value)
  }

  function Active(t: Table, order: seq<Account>): seq<Account> {
    if order == [] then []
    else
      var n := |order| - 1;
      Active(t, order[..n]) + if StandingOf(t, order[n]).active then [order[n]] else []
  }

  /** The numbered ranking of all active accounts. */
  function Ranking(t: Table, order: seq<Account>): (ranking: seq<Entry>) {
    var sorted := Sort(ByRank(t), Active(t, order));
    seq(|sorted|, i requires 0 <= i < |sorted| => Entry(i + 1, sorted[i]))
  }

  function InRegion(t: Table, region: Option<string>, entries: seq<Entry>): seq<Entry> {
    if entries == [] then []
    else
      var n := |entries| - 1;
      InRegion(t, region, entries[..n]) + if Shown(t, region, entries[n].account) then [entries[n]] else []
  }

  /** The filtered rows in the order the query asks for. */
  function Rows(t: Table, order: seq<Account>, region: Option<string>): seq<Entry> {
    Sort(ByPosition(), InRegion(t, region, Ranking(t, order)))
  }

  function Page(t: Table, order: seq<Account>, region: Option<string>, limit: nat, offset: nat): seq<Entry> {
    var rows := Rows(t, order, region);
    rows[Min(offset, |rows|)..Min(offset + limit, |rows|)]
  }

  /** The separate count query. */
  function Total(t: Table, order: seq<Account>, region: Option<string>): nat {
    if order == [] then 0
    else
      var n := |order| - 1;
      Total(t, order[..n], region) + if Shown(t, region, order[n]) then 1 else 0
  }

  /** The page size a request gets: a hundred at most, twenty-five when it asks for none. */
  function LimitOf(requested: Option<nat>): (limit: nat)
    ensures 1 <= limit <= 100
    ensures requested.Some? && 1 <= requested.value <= 100 ==> limit == requested.value
    ensures requested.Some? && requested.value > 100 ==> limit == 100
    ensures requested.None? || requested.value == 0 ==> limit == 25
  {
    if requested.Some? && requested.value > 0 then Min(requested.value, 100) else 25
  }

  // ---------------------------------------------------------------- ranks

  /** The stored rows, in any order: every account once. */
  ghost predicate ListsTable(t: Table, order: seq<Account>) {
    Distinct(order) && forall a :: a in order <==> a in t
  }

  lemma {:induction false} ActiveMembers(t: Table, order: seq<Account>)
    requires Distinct(order)
    ensures Distinct(Active(t, order))
    ensures forall a :: a in Active(t, order) <==> a in order && StandingOf(t, a).active
  {
    if order != [] {
      var n := |order| - 1;
      assert order == order[..n] + [order[n]];
      ActiveMembers(t, order[..n]);
      assert order[n] !in order[..n];
      var before := Active(t, order[..n]);
      assert forall i :: 0 <= i < |before| ==> before[i] in before;
    }
  }

  lemma {:induction false} InRegionSorted(t: Table, region: Option<string>, entries: seq<Entry>)
    requires Sorted(ByPosition(), entries)
    ensures Sorted(ByPosition(), InRegion(t, region, entries))
    ensures forall e :: e in InRegion(t, region, entries) <==> e in entries && Shown(t, region, e.account)
  {
    if entries != [] {
      var n := |entries| - 1;
      InRegionSorted(t, region, entries[..n]);
      var before := InRegion(t, region, entries[..n]);
      assert entries == entries[..n] + [entries[n]];
      forall i | 0 <= i < |before| ensures ByPosition()(before[i], entries[n]) {
        assert before[i] in before;
        var k :| 0 <= k < n && entries[k] == before[i];
      }
      hide Shown;
    }
  }

  lemma RankingSorted(t: Table, order: seq<Account>)
    ensures Sorted(ByPosition(), Ranking(t, order))
  {
  }

  lemma SortedStays<T(!new)>(less: (T, T) -> bool, s: seq<T>)
    requires StrictOrder(less) && Sorted(less, s)
    ensures Sort(less, s) == s
  {
    SortedDistinct(less, s);
    SortSorts(less, s);
    SortMembers(less, s);
    SortedUnique(less, Sort(less, s), s);
  }

  /** The final ordering finds the rows in order already. */
  lemma RowsAreFiltered(t: Table, order: seq<Account>, region: Option<string>)
    ensures Rows(t, order, region) == InRegion(t, region, Ranking(t, order))
    ensures Sorted(ByPosition(), Rows(t, order, region))
  {
    RankingSorted(t, order);
    InRegionSorted(t, region, Ranking(t, order));
    ByPositionIsOrder();
    hide Ranking, InRegion, ByPosition;
    SortedStays(ByPosition(), InRegion(t, region, Ranking(t, order)));
  }

  /**
   Ranks do not depend on the region: each row carries its position among all active accounts,
   ranks strictly increase down the page, and a better rank means outranking.
   */
  lemma RanksAreGlobal(t: Table, order: seq<Account>, region: Option<string>)
    requires ListsTable(t, order)
    ensures
      var rows, ranking := Rows(t, order, region), Ranking(t, order);
      && (forall e :: e in rows <==> e in ranking && Shown(t, region, e.account))
      && (forall i, j :: 0 <= i < j < |rows| ==> rows[i].rank < rows[j].rank)
      && (forall i :: 0 <= i < |ranking| ==> ranking[i].rank == i + 1)
      && (forall i, j :: 0 <= i < j < |ranking| ==> Outranks(t, ranking[i].account, ranking[j].account))
      && (forall a :: a in t && t[a].active <==> exists i :: 0 <= i < |ranking| && ranking[i].account == a)
  {
    RowsAreFiltered(t, order, region);
    RankingSorted(t, order);
    InRegionSorted(t, region, Ranking(t, order));
    RankingMeaning(t, order);
    RanksIncrease(Ranking(t, order), Rows(t, order, region)) by { hide Rows, Sort, InRegion, Active; }
    hide Rows, Ranking, InRegion, Sort, Outranks, Shown;
  }

  lemma RanksIncrease(ranking: seq<Entry>, rows: seq<Entry>)
    requires forall i :: 0 <= i < |ranking| ==> ranking[i].rank == i + 1
    requires forall e :: e in rows ==> e in ranking
    requires Sorted(ByPosition(), rows)
    ensures forall i, j :: 0 <= i < j < |rows| ==> rows[i].rank < rows[j].rank
  {
    forall i, j | 0 <= i < j < |rows| ensures rows[i].rank < rows[j].rank {
      assert rows[i] in rows && rows[j] in rows;
      var a :| 0 <= a < |ranking| && ranking[a] == rows[i];
      var b :| 0 <= b < |ranking| && ranking[b] == rows[j];
    }
  }

  lemma RankingMeaning(t: Table, order: seq<Account>)
    requires ListsTable(t, order)
    ensures
      var ranking := Ranking(t, order);
      && (forall i :: 0 <= i < |ranking| ==> ranking[i].rank == i + 1)
      && (forall i, j :: 0 <= i < j < |ranking| ==> Outranks(t, ranking[i].account, ranking[j].account))
      && (forall a :: a in t && t[a].active <==> exists i :: 0 <= i < |ranking| && ranking[i].account == a)
  {
    var active := Active(t, order);
    var sorted := Sort(ByRank(t), active);
    var ranking := Ranking(t, order);
    ByRankIsOrder(t);
    ActiveMembers(t, order);
    SortSorts(ByRank(t), active);
    SortMembers(ByRank(t), active);
    hide Sort, Active, Outranks;
    forall a ensures a in t && t[a].active <==> exists i :: 0 <= i < |ranking| && ranking[i].account == a {
      MembersAgree(sorted, active, a);
      if a in sorted {
        var i :| 0 <= i < |sorted| && sorted[i] == a;
        assert ranking[i].account == a;
      }
    }
  }

  // ---------------------------------------------------------------- what a rank counts

  /** The rule in one condition: points, then wins, then matches, then the smaller id decide. */
  predicate Beats(x: Standing, a: Account, y: Standing, b: Account) {
    || x.points > y.points
    || (x.points == y.points && x.wins > y.wins)
    || (x.points == y.points && x.wins == y.wins && x.matches > y.matches)
    || (x.points == y.points && x.wins == y.wins && x.matches == y.matches && a < b)
  }

  /** The active accounts that do better. */
  function Better(t: Table, a: Account): set<Account>
    requires a in t
  {
    set b | b in t && t[b].active && Beats(t[b], b, t[a], a)
  }

  function ElementsOf(s: seq<Account>): set<Account> { set a | a in s }

  lemma {:induction false} DistinctCount(s: seq<Account>)
    requires Distinct(s)
    ensures |ElementsOf(s)| == |s|
  {
    if s == [] {
      assert ElementsOf(s) == {};
    } else {
      var n := |s| - 1;
      DistinctCount(s[..n]);
      assert s == s[..n] + [s[n]];
      assert ElementsOf(s) == ElementsOf(s[..n]) + {s[n]};
      assert s[n] !in ElementsOf(s[..n]);
    }
  }

  function Accounts(ranking: seq<Entry>): (accounts: seq<Account>)
    ensures |accounts| == |ranking| && forall i :: 0 <= i < |ranking| ==> accounts[i] == ranking[i].account
  {
    seq(|ranking|, i requires 0 <= i < |ranking| => ranking[i].account)
  }

  /** In a ranking, those who do better are those in front. */
  lemma InFront(t: Table, ranking: seq<Entry>, i: nat)
    requires i < |ranking| && ranking[i].account in t
    requires forall j, k :: 0 <= j < k < |ranking| ==> Outranks(t, ranking[j].account, ranking[k].account)
    requires forall a :: a in t && t[a].active <==> exists j :: 0 <= j < |ranking| && ranking[j].account == a
    ensures |Better(t, ranking[i].account)| == i
  {
    var a, front := ranking[i].account, Accounts(ranking)[..i];
    assert forall k :: 0 <= k < |ranking| ==> ranking[k].account in t && t[ranking[k].account].active;
    assert forall k :: 0 <= k < i ==> front[k] in t && t[front[k]].active;
    assert Better(t, a) == ElementsOf(front) by {
      forall b ensures b in Better(t, a) <==> b in front {
        if b in t && t[b].active {
          var j :| 0 <= j < |ranking| && ranking[j].account == b;
          if j < i { assert front[j] == b && Outranks(t, b, a); }
          if j > i { assert Outranks(t, a, b); }
          if b in front {
            var k :| 0 <= k < i && front[k] == b;
            assert Outranks(t, ranking[k].account, a);
          }
        }
      }
    }
    forall j, k | 0 <= j < k < i ensures front[j] != front[k] {
      assert Outranks(t, ranking[j].account, ranking[k].account);
    }
    DistinctCount(front);
  }

  /**
   The rows are, in terms of the table alone, the active accounts of the region, each with one more
   than the number of active accounts anywhere that do better.
   */
  lemma RankCountsBetter(t: Table, order: seq<Account>, region: Option<string>, e: Entry)
    requires ListsTable(t, order)
    ensures
      e in Rows(t, order, region) <==>
        && e.account in t && t[e.account].active && (region.Some? ==> t[e.account].region == region.value)
        && e.rank == 1 + |Better(t, e.account)|
  {
    RanksAreGlobal(t, order, region);
    var ranking := Ranking(t, order);
    assert forall k :: 0 <= k < |ranking| ==> ranking[k].account in t && t[ranking[k].account].active;
    hide Rows, Ranking, Better, Outranks;
    if e.account in t && t[e.account].active {
      var i :| 0 <= i < |ranking| && ranking[i].account == e.account;
      InFront(t, ranking, i);
      assert ranking[i] in ranking;
      if e in ranking {
        var k :| 0 <= k < |ranking| && ranking[k] == e;
        InFront(t, ranking, k);
      }
    }
  }

  // ---------------------------------------------------------------- storage order

  lemma {:induction false} ActiveMultiset(t: Table, order: seq<Account>, a: Account)
    ensures multiset(Active(t, order))[a] == if StandingOf(t, a).active then multiset(order)[a] else 0
  {
    if order != [] {
      var n := |order| - 1;
      WithoutLast(order);
      ActiveMultiset(t, order[..n], a);
    }
  }

  /** A page depends on the table alone, not on the order in which its rows are stored. */
  lemma StorageOrderDoesNotMatter(t: Table, s: seq<Account>, u: seq<Account>, region: Option<string>,
                                  limit: nat, offset: nat)
    requires ListsTable(t, s) && ListsTable(t, u)
    ensures Page(t, s, region, limit, offset) == Page(t, u, region, limit, offset)
  {
    SameMultiset(s, u);
    forall a ensures multiset(Active(t, s))[a] == multiset(Active(t, u))[a] {
      ActiveMultiset(t, s, a);
      ActiveMultiset(t, u, a);
    }
    ActiveMembers(t, s);
    ActiveMembers(t, u);
    ByRankIsOrder(t);
    hide Sort, Active;
    SortIsCanonical(ByRank(t), Active(t, s), Active(t, u));
  }

  lemma SameMultiset<T(!new)>(s: seq<T>, u: seq<T>)
    requires Distinct(s) && Distinct(u) && forall x :: x in s <==> x in u
    ensures multiset(s) == multiset(u)
  {
    forall x ensures multiset(s)[x] == multiset(u)[x] {
      CountsOnce(s, x);
      CountsOnce(u, x);
    }
  }

  // ---------------------------------------------------------------- pages

  /** The first k pages put together. */
  function Pages(t: Table, order: seq<Account>, region: Option<string>, limit: nat, k: nat): seq<Entry> {
    if k == 0 then [] else Pages(t, order, region, limit, k - 1) + Page(t, order, region, limit, (k - 1) * limit)
  }

  lemma {:induction false} PagesArePrefix(t: Table, order: seq<Account>, region: Option<string>, limit: nat, k: nat)
    ensures
      var rows := Rows(t, order, region);
      Pages(t, order, region, limit, k) == rows[..Min(k * limit, |rows|)]
  {
    hide Rows;
    if k > 0 {
      PagesArePrefix(t, order, region, limit, k - 1);
      NextPage(Rows(t, order, region), (k - 1) * limit, limit);
      assert (k - 1) * limit + limit == k * limit;
    }
  }

  lemma NextPage(rows: seq<Entry>, offset: nat, limit: nat)
    ensures
      var here, there := Min(offset, |rows|), Min(offset + limit, |rows|);
      rows[..here] + rows[here..there] == rows[..there]
  {
  }

  lemma {:induction false} CountShown(t: Table, region: Option<string>, entries: seq<Entry>, accounts: seq<Account>)
    requires |entries| == |accounts| && forall i :: 0 <= i < |entries| ==> entries[i].account == accounts[i]
    ensures |InRegion(t, region, entries)| == Total(t, accounts, region)
  {
    if entries != [] {
      var n := |entries| - 1;
      hide Shown;
      CountShown(t, region, entries[..n], accounts[..n]);
    }
  }

  lemma TotalAppend(t: Table, s: seq<Account>, a: Account, region: Option<string>)
    ensures Total(t, s + [a], region) == Total(t, s, region) + if Shown(t, region, a) then 1 else 0
  {
    assert (s + [a])[..|s|] == s;
  }

  lemma {:induction false} TotalOfActive(t: Table, order: seq<Account>, region: Option<string>)
    ensures Total(t, Active(t, order), region) == Total(t, order, region)
  {
    if order != [] {
      var n := |order| - 1;
      TotalOfActive(t, order[..n], region);
      var before := Active(t, order[..n]);
      if StandingOf(t, order[n]).active {
        TotalAppend(t, before, order[n], region);
      } else {
        assert before + [] == before;
      }
    }
  }

  /** Inserting one account adds its count. */
  lemma {:induction false} TotalOfInsert(t: Table, less: (Account, Account) -> bool, s: seq<Account>, a: Account,
                                         region: Option<string>)
    ensures Total(t, InsertSorted(less, s, a), region) == Total(t, s, region) + if Shown(t, region, a) then 1 else 0
  {
    hide Shown;
    if s == [] {
      TotalAppend(t, [], a, region);
      assert [] + [a] == [a];
    } else {
      var n := |s| - 1;
      if less(s[n], a) {
        TotalAppend(t, s, a, region);
      } else {
        TotalOfInsert(t, less, s[..n], a, region);
        TotalAppend(t, InsertSorted(less, s[..n], a), s[n], region);
      }
    }
  }

  lemma {:induction false} TotalOfSort(t: Table, less: (Account, Account) -> bool, s: seq<Account>,
                                       region: Option<string>)
    ensures Total(t, Sort(less, s), region) == Total(t, s, region)
  {
    if s != [] {
      hide Shown;
      var n := |s| - 1;
      TotalOfSort(t, less, s[..n], region);
      TotalOfInsert(t, less, Sort(less, s[..n]), s[n], region);
    }
  }

  /** The reported total is the number of rows of all pages. */
  lemma TotalCountsRows(t: Table, order: seq<Account>, region: Option<string>)
    ensures |Rows(t, order, region)| == Total(t, order, region)
  {
    var sorted := Sort(ByRank(t), Active(t, order));
    RowsAreFiltered(t, order, region);
    CountShown(t, region, Ranking(t, order), sorted);
    TotalOfSort(t, ByRank(t), Active(t, order), region);
    TotalOfActive(t, order, region);
    hide Rows, InRegion, Sort, Active, Total;
  }

  /**
   Reading page after page until the total is reached gives every row of the region exactly once,
   in rank order.
   */
  lemma PagesCoverTheBoard(t: Table, order: seq<Account>, region: Option<string>, requested: Option<nat>, k: nat)
    requires k * LimitOf(requested) >= Total(t, order, region)
    ensures Pages(t, order, region, LimitOf(requested), k) == InRegion(t, region, Ranking(t, order))
    ensures Distinct(Pages(t, order, region, LimitOf(requested), k))
    ensures |Pages(t, order, region, LimitOf(requested), k)| == Total(t, order, region)
  {
    PagesArePrefix(t, order, region, LimitOf(requested), k);
    TotalCountsRows(t, order, region);
    RowsAreFiltered(t, order, region);
    ByPositionIsOrder();
    var rows := Rows(t, order, region);
    SortedDistinct(ByPosition(), rows);
    hide Rows, InRegion, Ranking, Total, Pages;
    assert rows[..|rows|] == rows;
  }
}
