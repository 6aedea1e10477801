/**
 * Grouping sold lines by product name, the aggregation behind every "top products"
 * statistic: `GROUP BY product_name` with `SUM(quantity)` and `SUM(subtotal)`, and the
 * browser store's `Map<string, TopProduct>` tally, whose entries keep the id of the first
 * line seen under each name and iterate in first-insertion order.
 */
module Tally {
  import opened Wrappers
  import opened Seqs

  /** A sold line as the statistics see it. */
  datatype Sale = Sale(id: int, name: string, quantity: int, subtotal: int)

  /** One group: the id of its first sale, the name, the summed quantity and the summed subtotal. */
  datatype Group = Group(firstId: int, name: string, totalSold: int, totalRevenue: int)

  /** The names the sales were made under. */
  function Names(sales: seq<Sale>): set<string> {
    if sales == [] then {} else Names(sales[..|sales| - 1]) + {sales[|sales| - 1].name}
  }

  lemma {:induction false} NotInNames(sales: seq<Sale>, n: string)
    requires n !in Names(sales)
    ensures forall j :: 0 <= j < |sales| ==> sales[j].name != n
  {
    if sales != [] {
      NotInNames(sales[..|sales| - 1], n);
    }
  }

  /** Units sold under name `n`. */
  function SoldOf(sales: seq<Sale>, n: string): int {
    if sales == [] then 0
    else
      var last := sales[|sales| - 1];
      SoldOf(sales[..|sales| - 1], n) + (if last.name == n then last.quantity else 0)
  }

  /** Revenue taken under name `n`. */
  function RevenueOf(sales: seq<Sale>, n: string): int {
    if sales == [] then 0
    else
      var last := sales[|sales| - 1];
      RevenueOf(sales[..|sales| - 1], n) + (if last.name == n then last.subtotal else 0)
  }

  /** The id of the first sale under name `n`. */
  function FirstIdOf(sales: seq<Sale>, n: string): (id: int)
    requires n in Names(sales)
    ensures exists i :: && 0 <= i < |sales| && sales[i].name == n && sales[i].id == id
                        && forall j :: 0 <= j < i ==> sales[j].name != n
  {
    var init, last := sales[..|sales| - 1], sales[|sales| - 1];
    assert forall i :: 0 <= i < |init| ==> init[i] == sales[i];
    if n in Names(init) then FirstIdOf(init, n)
    else
      NotInNames(init, n);
      last.id
  }

  lemma {:induction false} NoSalesUnderName(sales: seq<Sale>, n: string)
    requires n !in Names(sales)
    ensures SoldOf(sales, n) == 0 && RevenueOf(sales, n) == 0
  {
    if sales != [] {
      NoSalesUnderName(sales[..|sales| - 1], n);
    }
  }

  /** The names of the groups. */
  function GroupNames(gs: seq<Group>): set<string> {
    set i | 0 <= i < |gs| :: gs[i].name
  }

  /** The names of the groups, in order. */
  function NameList(gs: seq<Group>): (names: seq<string>)
    ensures |names| == |gs| && forall i :: 0 <= i < |gs| ==> names[i] == gs[i].name
  {
    seq(|gs|, i requires 0 <= i < |gs| => gs[i].name)
  }

  /** The names `kept` are best sellers: no sold name left out of them sold more units than one kept. */
  ghost predicate KeepsBestSellers(kept: seq<string>, sales: seq<Sale>) {
    forall n, i :: n in Names(sales) && n !in kept && 0 <= i < |kept| ==> SoldOf(sales, n) <= SoldOf(sales, kept[i])
  }

  /** No name has two groups. */
  ghost predicate NamesDistinct(gs: seq<Group>) {
    forall i, j :: 0 <= i < j < |gs| ==> gs[i].name != gs[j].name
  }

  /** `gs` is the tally of `sales`: one group per sold name, holding that name's sums and first id. */
  ghost predicate Tallies(gs: seq<Group>, sales: seq<Sale>) {
    && NamesDistinct(gs)
    && GroupNames(gs) == Names(sales)
    && forall i :: 0 <= i < |gs| ==>
         && gs[i].name in Names(sales)
         && gs[i].totalSold == SoldOf(sales, gs[i].name)
         && gs[i].totalRevenue == RevenueOf(sales, gs[i].name)
         && gs[i].firstId == FirstIdOf(sales, gs[i].name)
  }

  /** `tally.get(name)`, as the position of the group with that name. */
  function FindGroup(gs: seq<Group>, n: string): (r: Option<nat>)
    ensures r.Some? ==> r.value < |gs| && gs[r.value].name == n
    ensures r.None? ==> n !in GroupNames(gs)
  {
    if gs == [] then None
    else if gs[0].name == n then Some(0)
    else match FindGroup(gs[1..], n)
      case None =>
        assert forall i :: 1 <= i < |gs| ==> gs[i] == gs[1..][i - 1];
        None
      case Some(i) => Some(i + 1)
  }

  /** One step of the tally: add to the existing group, or open a new one at the end. */
  function AddSale(gs: seq<Group>, s: Sale): seq<Group> {
    match FindGroup(gs, s.name)
    case Some(k) => gs[k := gs[k].(totalSold := gs[k].totalSold + s.quantity,
                                   totalRevenue := gs[k].totalRevenue + s.subtotal)]
    case None => gs + [Group(s.id, s.name, s.quantity, s.subtotal)]
  }

  /** What appending one sale does to the per-name sums, names and first ids. */
  lemma AppendSale(sales: seq<Sale>, s: Sale)
    ensures Names(sales + [s]) == Names(sales) + {s.name}
    ensures forall n :: SoldOf(sales + [s], n) == SoldOf(sales, n) + (if s.name == n then s.quantity else 0)
    ensures forall n :: RevenueOf(sales + [s], n) == RevenueOf(sales, n) + (if s.name == n then s.subtotal else 0)
    ensures forall n :: n in Names(sales) ==> FirstIdOf(sales + [s], n) == FirstIdOf(sales, n)
    ensures s.name !in Names(sales) ==> FirstIdOf(sales + [s], s.name) == s.id
  {
    assert (sales + [s])[..|sales + [s]| - 1] == sales;
  }

  /** After one more sale, a group keeps its sums for the other names and gains the sale under its own. */
  lemma BumpedGroup(g: Group, sales: seq<Sale>, s: Sale)
    requires g.name in Names(sales)
    requires g.totalSold == SoldOf(sales, g.name) && g.totalRevenue == RevenueOf(sales, g.name)
    requires g.firstId == FirstIdOf(sales, g.name)
    ensures var h := if g.name == s.name then g.(totalSold := g.totalSold + s.quantity,
                                                  totalRevenue := g.totalRevenue + s.subtotal) else g;
      && h.totalSold == SoldOf(sales + [s], g.name)
      && h.totalRevenue == RevenueOf(sales + [s], g.name)
      && h.firstId == FirstIdOf(sales + [s], g.name)
  {
    AppendSale(sales, s);
  }

  lemma AddToGroupTallies(gs: seq<Group>, sales: seq<Sale>, s: Sale, k: nat)
    requires Tallies(gs, sales)
    requires k < |gs| && gs[k].name == s.name
    ensures Tallies(gs[k := gs[k].(totalSold := gs[k].totalSold + s.quantity,
                                   totalRevenue := gs[k].totalRevenue + s.subtotal)], sales + [s])
  {
    var all := sales + [s];
    assert all[..|all| - 1] == sales;
    assert Names(all) == Names(sales);
    var gs' := gs[k := gs[k].(totalSold := gs[k].totalSold + s.quantity,
                              totalRevenue := gs[k].totalRevenue + s.subtotal)];
    assert forall i :: 0 <= i < |gs| ==> gs'[i].name == gs[i].name;
    assert GroupNames(gs') == GroupNames(gs);
    forall i | 0 <= i < |gs'|
      ensures gs'[i].name in Names(all)
      ensures gs'[i].totalSold == SoldOf(all, gs'[i].name)
      ensures gs'[i].totalRevenue == RevenueOf(all, gs'[i].name)
      ensures gs'[i].firstId == FirstIdOf(all, gs'[i].name)
    {
      BumpedGroup(gs[i], sales, s);
      assert i != k ==> gs[i].name != s.name && gs'[i] == gs[i];
    }
  }

  /** The names of one more group are the old names and its own. */
  lemma AppendGroupNames(gs: seq<Group>, g: Group)
    ensures GroupNames(gs + [g]) == GroupNames(gs) + {g.name}
  {
    var gs' := gs + [g];
    forall n | n in GroupNames(gs')
      ensures n in GroupNames(gs) + {g.name}
    {
      var i :| 0 <= i < |gs'| && gs'[i].name == n;
      if i < |gs| { assert gs[i].name in GroupNames(gs); }
    }
    forall n | n in GroupNames(gs) + {g.name}
      ensures n in GroupNames(gs')
    {
      if n == g.name {
        assert gs'[|gs|].name == n;
      } else {
        var i :| 0 <= i < |gs| && gs[i].name == n;
        assert gs'[i].name == n;
      }
    }
  }

  /** The first sale under a new name opens its sums and gives its first id. */
  lemma FirstSaleOfName(sales: seq<Sale>, s: Sale)
    requires s.name !in Names(sales)
    ensures s.name in Names(sales + [s])
    ensures SoldOf(sales + [s], s.name) == s.quantity && RevenueOf(sales + [s], s.name) == s.subtotal
    ensures FirstIdOf(sales + [s], s.name) == s.id
  {
    AppendSale(sales, s);
    NoSalesUnderName(sales, s.name);
  }

  lemma NewGroupTallies(gs: seq<Group>, sales: seq<Sale>, s: Sale)
    requires Tallies(gs, sales)
    requires s.name !in GroupNames(gs)
    ensures Tallies(gs + [Group(s.id, s.name, s.quantity, s.subtotal)], sales + [s])
  {
    var all := sales + [s];
    assert all[..|all| - 1] == sales;
    assert Names(all) == Names(sales) + {s.name};
    FirstSaleOfName(sales, s);
    var g := Group(s.id, s.name, s.quantity, s.subtotal);
    var gs' := gs + [g];
    AppendGroupNames(gs, g);
    assert NamesDistinct(gs') by {
      forall i, j | 0 <= i < j < |gs'|
        ensures gs'[i].name != gs'[j].name
      {
        assert gs'[i] == gs[i];
        if j == |gs| { assert gs[i].name in GroupNames(gs); } else { assert gs'[j] == gs[j]; }
      }
    }
    forall i | 0 <= i < |gs|
      ensures gs'[i].totalSold == SoldOf(all, gs'[i].name)
      ensures gs'[i].totalRevenue == RevenueOf(all, gs'[i].name)
      ensures gs'[i].firstId == FirstIdOf(all, gs'[i].name)
    {
      assert gs'[i] == gs[i];
      assert gs[i].name in GroupNames(gs);
      BumpedGroup(gs[i], sales, s);
    }
    assert gs'[|gs|] == g;
  }

  lemma AddSaleTallies(gs: seq<Group>, sales: seq<Sale>, s: Sale)
    requires Tallies(gs, sales)
    ensures Tallies(AddSale(gs, s), sales + [s])
  {
    match FindGroup(gs, s.name)
    case Some(k) =>
      AddToGroupTallies(gs, sales, s, k);
      assert AddSale(gs, s) == gs[k := gs[k].(totalSold := gs[k].totalSold + s.quantity,
                                              totalRevenue := gs[k].totalRevenue + s.subtotal)];
    case None =>
      NewGroupTallies(gs, sales, s);
      assert AddSale(gs, s) == gs + [Group(s.id, s.name, s.quantity, s.subtotal)];
  }

  /**
   * The tally of `sales`, built line by line: one group per sold name, in the order the
   * names first appear, each holding its summed quantity, summed subtotal and first id.
   */
  function GroupByName(sales: seq<Sale>): (gs: seq<Group>)
    ensures Tallies(gs, sales)
  {
    if sales == [] then []
    else
      var init, last := sales[..|sales| - 1], sales[|sales| - 1];
      assert sales == init + [last];
      var gs := GroupByName(init);
      AddSaleTallies(gs, init, last);
      AddSale(gs, last)
  }

  /** The tally of one more sale is one more `AddSale` step. */
  lemma GroupByNameSnoc(sales: seq<Sale>, s: Sale)
    ensures GroupByName(sales + [s]) == AddSale(GroupByName(sales), s)
  {
    assert (sales + [s])[..|sales|] == sales;
  }

  /** Sorting ascending by this key puts the best seller first. */
  function MostSoldFirst(g: Group): int { -g.totalSold }

  /** Groups with distinct names have as many names as groups. */
  lemma {:induction false} DistinctNamesCount(gs: seq<Group>)
    requires NamesDistinct(gs)
    ensures |GroupNames(gs)| == |gs|
  {
    if gs != [] {
      var init, last := gs[..|gs| - 1], gs[|gs| - 1];
      assert NamesDistinct(init) by {
        forall i, j | 0 <= i < j < |init| ensures init[i].name != init[j].name {
          assert init[i] == gs[i] && init[j] == gs[j];
        }
      }
      DistinctNamesCount(init);
      assert last.name !in GroupNames(init) by {
        forall i | 0 <= i < |init| ensures init[i].name != last.name {
          assert init[i] == gs[i];
        }
      }
      assert GroupNames(gs) == GroupNames(init) + {last.name} by {
        forall n | n in GroupNames(gs) ensures n in GroupNames(init) + {last.name} {
          var i :| 0 <= i < |gs| && gs[i].name == n;
          if i < |init| { assert init[i] == gs[i]; }
        }
        forall n | n in GroupNames(init) ensures n in GroupNames(gs) {
          var i :| 0 <= i < |init| && init[i].name == n;
          assert gs[i] == init[i];
        }
      }
    }
  }

  /** Groups with distinct names hold no group twice. */
  lemma {:induction false} DistinctOccursOnce(gs: seq<Group>, g: Group)
    requires NamesDistinct(gs)
    ensures multiset(gs)[g] <= 1
  {
    if gs != [] {
      var tail := gs[1..];
      assert gs == [gs[0]] + tail;
      assert NamesDistinct(tail) by {
        forall i, j | 0 <= i < j < |tail| ensures tail[i].name != tail[j].name {
          assert tail[i] == gs[i + 1] && tail[j] == gs[j + 1];
        }
      }
      DistinctOccursOnce(tail, g);
      if g == gs[0] {
        assert g !in tail by {
          forall i | 0 <= i < |tail| ensures tail[i] != g {
            assert tail[i] == gs[i + 1];
          }
        }
      }
    }
  }

  /** Each entry of a reordering is one of the original entries. */
  lemma PositionIn(gs: seq<Group>, ranked: seq<Group>, i: nat) returns (m: nat)
    requires multiset(ranked) == multiset(gs) && i < |ranked|
    ensures m < |gs| && gs[m] == ranked[i]
  {
    assert ranked[i] in multiset(ranked);
    assert ranked[i] in gs;
    m :| 0 <= m < |gs| && gs[m] == ranked[i];
  }

  /** A reordering of groups with distinct names still has distinct names. */
  lemma ReorderedNamesDistinct(gs: seq<Group>, ranked: seq<Group>)
    requires NamesDistinct(gs) && multiset(ranked) == multiset(gs)
    ensures NamesDistinct(ranked)
  {
    forall i, j | 0 <= i < j < |ranked| ensures ranked[i].name != ranked[j].name {
      var mi := PositionIn(gs, ranked, i);
      var mj := PositionIn(gs, ranked, j);
      if ranked[i].name == ranked[j].name {
        assert ranked[i] == ranked[j];
        assert multiset(ranked)[ranked[i]] >= 2 by {
          assert ranked == ranked[..j] + ranked[j..];
          assert ranked[i] in ranked[..j] && ranked[j] in ranked[j..];
          assert multiset(ranked) == multiset(ranked[..j]) + multiset(ranked[j..]);
        }
        DistinctOccursOnce(gs, ranked[i]);
      }
    }
  }

  /** A reordering of a tally tallies the same sales. */
  lemma ReorderedTallies(gs: seq<Group>, ranked: seq<Group>, sales: seq<Sale>)
    requires Tallies(gs, sales) && multiset(ranked) == multiset(gs)
    ensures Tallies(ranked, sales)
  {
    ReorderedNamesDistinct(gs, ranked);
    forall i | 0 <= i < |ranked|
      ensures && ranked[i].name in Names(sales)
              && ranked[i].totalSold == SoldOf(sales, ranked[i].name)
              && ranked[i].totalRevenue == RevenueOf(sales, ranked[i].name)
              && ranked[i].firstId == FirstIdOf(sales, ranked[i].name)
    {
      var m := PositionIn(gs, ranked, i);
    }
    assert GroupNames(ranked) == GroupNames(gs) by {
      forall n | n in GroupNames(ranked) ensures n in GroupNames(gs) {
        var i :| 0 <= i < |ranked| && ranked[i].name == n;
        var m := PositionIn(gs, ranked, i);
      }
      forall n | n in GroupNames(gs) ensures n in GroupNames(ranked) {
        var m :| 0 <= m < |gs| && gs[m].name == n;
        var i := PositionIn(ranked, gs, m);
      }
    }
  }

  /**
   * A reordering of a tally, best sellers first: sorted by units sold descending, one entry
   * per sold name, each holding that name's sums and first id.
   */
  lemma RankedTallies(gs: seq<Group>, ranked: seq<Group>, sales: seq<Sale>)
    requires Tallies(gs, sales)
    requires SortedBy(ranked, MostSoldFirst) && multiset(ranked) == multiset(gs)
    ensures forall i, j :: 0 <= i < j < |ranked| ==> ranked[i].totalSold >= ranked[j].totalSold
    ensures Tallies(ranked, sales)
    ensures |ranked| == |Names(sales)|
  {
    forall i, j | 0 <= i < j < |ranked| ensures ranked[i].totalSold >= ranked[j].totalSold {
      assert MostSoldFirst(ranked[i]) <= MostSoldFirst(ranked[j]);
    }
    ReorderedTallies(gs, ranked, sales);
    DistinctNamesCount(ranked);
  }

  /**
   * A prefix of a ranked tally keeps its order, its distinct names and its sums, and it keeps
   * the best sellers: no sold name left out of it sold more units than a name kept in it.
   */
  lemma RankedPrefix(ranked: seq<Group>, top: seq<Group>, sales: seq<Sale>)
    requires Tallies(ranked, sales) && top <= ranked
    requires forall i, j :: 0 <= i < j < |ranked| ==> ranked[i].totalSold >= ranked[j].totalSold
    ensures forall i, j :: 0 <= i < j < |top| ==>
      SoldOf(sales, top[i].name) >= SoldOf(sales, top[j].name) && top[i].name != top[j].name
    ensures forall i :: 0 <= i < |top| ==>
      && top[i].name in Names(sales)
      && top[i].totalSold == SoldOf(sales, top[i].name)
      && top[i].totalRevenue == RevenueOf(sales, top[i].name)
    ensures KeepsBestSellers(NameList(top), sales)
  {
    assert forall i :: 0 <= i < |top| ==> top[i] == ranked[i];
    var kept := NameList(top);
    forall n, i | n in Names(sales) && n !in kept && 0 <= i < |kept|
      ensures SoldOf(sales, n) <= SoldOf(sales, kept[i])
    {
      assert n in GroupNames(ranked);
      var k :| 0 <= k < |ranked| && ranked[k].name == n;
      assert ranked[i].totalSold >= ranked[k].totalSold;
    }
  }
}
