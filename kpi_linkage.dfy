/**
 * The links from a ratio KPI to its two absolute KPIs (`RelativeKPI` rows):
 * listing them numerator first, and repointing them when the KPI is edited.
 */
module KpiLinkage {
  import opened Wrappers
  import opened KpiErrors
  import opened KpiModels

  /** A stored `RelativeKPI` row with its soft-delete flag. */
  datatype StoredLink = StoredLink(link: RelativeKpi, isActive: bool)

  /** The `Case/When` ordering key: numerator 1, denominator 2, any other level 3. */
  function Rank(level: string): (n: int)
    ensures 1 <= n <= 3
    ensures n == 1 <==> level == Numerator
    ensures n == 2 <==> level == Denominator
  {
    if level == Numerator then 1 else if level == Denominator then 2 else 3
  }

  predicate Matches(s: StoredLink, kpiId: Uuid)
  {
    s.isActive && s.link.relativeKpiId == kpiId
  }

  /** The active links of `kpiId` with ordering key `rank`, in table order. */
  function WithRank(rows: seq<StoredLink>, kpiId: Uuid, rank: int): (r: seq<RelativeKpi>)
    ensures forall i :: 0 <= i < |r| ==> Rank(r[i].level) == rank && r[i].relativeKpiId == kpiId
    decreases |rows|
  {
    if rows == [] then []
    else
      var rest := WithRank(rows[..|rows| - 1], kpiId, rank);
      var s := rows[|rows| - 1];
      if Matches(s, kpiId) && Rank(s.link.level) == rank then rest + [s.link] else rest
  }

  /** The active links of `kpiId`, in table order. */
  function Active(rows: seq<StoredLink>, kpiId: Uuid): seq<RelativeKpi>
    decreases |rows|
  {
    if rows == [] then []
    else
      var rest := Active(rows[..|rows| - 1], kpiId);
      var s := rows[|rows| - 1];
      if Matches(s, kpiId) then rest + [s.link] else rest
  }

  /**
   * `list_relative_kpis`: the active links of `kpiId`, numerators first, then
   * denominators, then any other level. The database leaves the order among
   * equal keys open; here it is table order.
   */
  function ListRelativeKpis(rows: seq<StoredLink>, kpiId: Uuid): (r: seq<RelativeKpi>)
    ensures forall i, j :: 0 <= i < j < |r| ==> Rank(r[i].level) <= Rank(r[j].level)
    ensures forall i :: 0 <= i < |r| ==> r[i].relativeKpiId == kpiId
  {
    WithRank(rows, kpiId, 1) + WithRank(rows, kpiId, 2) + WithRank(rows, kpiId, 3)
  }

  /** Listing loses and invents no link: it is a reordering of the active links. */
  lemma {:induction false} ListIsPermutation(rows: seq<StoredLink>, kpiId: Uuid)
    ensures multiset(ListRelativeKpis(rows, kpiId)) == multiset(Active(rows, kpiId))
    decreases |rows|
  {
    if rows != [] {
      var init := rows[..|rows| - 1];
      ListIsPermutation(init, kpiId);
      var s := rows[|rows| - 1];
      var a, b, c := WithRank(init, kpiId, 1), WithRank(init, kpiId, 2), WithRank(init, kpiId, 3);
      assert multiset(ListRelativeKpis(init, kpiId)) == multiset(a) + multiset(b) + multiset(c);
      assert multiset(ListRelativeKpis(rows, kpiId))
          == multiset(WithRank(rows, kpiId, 1)) + multiset(WithRank(rows, kpiId, 2)) + multiset(WithRank(rows, kpiId, 3));
    }
  }

  /** A change of `absolute_kpi_id` only. */
  function SetTarget(s: StoredLink, absoluteKpiId: Uuid): StoredLink
  {
    s.(link := s.link.(absoluteKpiId := absoluteKpiId))
  }

  /** The table after the row with id `id0` points at `a0` and the row with id `id1` at `a1`. */
  function Repoint(rows: seq<StoredLink>, id0: Uuid, a0: Uuid, id1: Uuid, a1: Uuid): (r: seq<StoredLink>)
    ensures |r| == |rows|
    ensures forall i :: 0 <= i < |rows| ==>
      r[i] == (if rows[i].link.id == id0 then SetTarget(rows[i], a0)
               else if rows[i].link.id == id1 then SetTarget(rows[i], a1)
               else rows[i])
  {
    seq(|rows|, i requires 0 <= i < |rows| =>
      if rows[i].link.id == id0 then SetTarget(rows[i], a0)
      else if rows[i].link.id == id1 then SetTarget(rows[i], a1)
      else rows[i])
  }

  /** Row ids are primary keys. */
  predicate UniqueIds(rows: seq<StoredLink>)
  {
    forall i, j :: 0 <= i < j < |rows| ==> rows[i].link.id != rows[j].link.id
  }

  /** The listed links each come from a distinct row of the table. */
  lemma {:induction false} WithRankFromRows(rows: seq<StoredLink>, kpiId: Uuid, rank: int, i: nat)
    requires i < |WithRank(rows, kpiId, rank)|
    ensures exists j :: 0 <= j < |rows| && rows[j].link == WithRank(rows, kpiId, rank)[i]
    decreases |rows|
  {
    var init := rows[..|rows| - 1];
    if i < |WithRank(init, kpiId, rank)| {
      WithRankFromRows(init, kpiId, rank, i);
      var j :| 0 <= j < |init| && init[j].link == WithRank(init, kpiId, rank)[i];
      assert rows[j] == init[j];
    } else {
      assert rows[|rows| - 1].link == WithRank(rows, kpiId, rank)[i];
    }
  }

  /**
   * Repointing changes no level, flag or owner, so the listing after the
   * update has the same rows in the same order, only retargeted.
   */
  lemma {:induction false} RepointKeepsRanks(rows: seq<StoredLink>, kpiId: Uuid, rank: int,
                                             id0: Uuid, a0: Uuid, id1: Uuid, a1: Uuid)
    ensures |WithRank(Repoint(rows, id0, a0, id1, a1), kpiId, rank)| == |WithRank(rows, kpiId, rank)|
    ensures forall i :: 0 <= i < |WithRank(rows, kpiId, rank)| ==>
      var before := WithRank(rows, kpiId, rank)[i];
      var after := WithRank(Repoint(rows, id0, a0, id1, a1), kpiId, rank)[i];
      after == before.(absoluteKpiId := if before.id == id0 then a0 else if before.id == id1 then a1
                                        else before.absoluteKpiId)
    decreases |rows|
  {
    if rows != [] {
      var init := rows[..|rows| - 1];
      RepointKeepsRanks(init, kpiId, rank, id0, a0, id1, a1);
      assert Repoint(rows, id0, a0, id1, a1)[..|rows| - 1] == Repoint(init, id0, a0, id1, a1);
    }
  }

  /** The `RelativeKPI` table. */
  class LinkTable {
    var rows: seq<StoredLink>

    ghost predicate Valid()
      reads this
    {
      UniqueIds(rows)
    }

    constructor (rows: seq<StoredLink>)
      requires UniqueIds(rows)
      ensures Valid() && this.rows == rows
    {
      this.rows := rows;
    }

    /**
     * `update_relative_kpi`: unless the KPI has exactly two active links, raise
     * `RelativeKPINotFound` and change nothing; otherwise point the first
     * listed link at the numerator KPI and the second at the denominator KPI.
     */
    method UpdateRelativeKpi(kpiId: Uuid, numeratorId: Uuid, denominatorId: Uuid) returns (r: Result<bool, KpiError>)
      requires Valid()
      modifies this
      ensures Valid()
      ensures var listed := ListRelativeKpis(old(rows), kpiId);
        if |listed| != 2 then r == Err(RelativeKpiNotFound) && rows == old(rows)
        else r == Ok(true) && rows == Repoint(old(rows), listed[0].id, numeratorId, listed[1].id, denominatorId)
    {
      var relativeKpis := ListRelativeKpis(rows, kpiId);
      if |relativeKpis| != 2 {
        return Err(RelativeKpiNotFound);
      }
      rows := Repoint(rows, relativeKpis[0].id, numeratorId, relativeKpis[1].id, denominatorId);
      r := Ok(true);
    }
  }

  /**
   * After a successful repoint, listing again yields the numerator KPI first
   * and the denominator KPI second.
   */
  lemma RelistAfterRepoint(rows: seq<StoredLink>, kpiId: Uuid, numeratorId: Uuid, denominatorId: Uuid)
    requires UniqueIds(rows)
    requires |ListRelativeKpis(rows, kpiId)| == 2
    ensures var listed := ListRelativeKpis(rows, kpiId);
      var after := ListRelativeKpis(Repoint(rows, listed[0].id, numeratorId, listed[1].id, denominatorId), kpiId);
      |after| == 2 && after[0].absoluteKpiId == numeratorId && after[1].absoluteKpiId == denominatorId
      && after[0].level == listed[0].level && after[1].level == listed[1].level
  {
    var listed := ListRelativeKpis(rows, kpiId);
    var id0, id1 := listed[0].id, listed[1].id;
    var rep := Repoint(rows, id0, numeratorId, id1, denominatorId);
    RepointKeepsRanks(rows, kpiId, 1, id0, numeratorId, id1, denominatorId);
    RepointKeepsRanks(rows, kpiId, 2, id0, numeratorId, id1, denominatorId);
    RepointKeepsRanks(rows, kpiId, 3, id0, numeratorId, id1, denominatorId);
    DistinctListedIds(rows, kpiId);
  }

  /** Two listed links come from two distinct rows, so their ids differ. */
  lemma DistinctListedIds(rows: seq<StoredLink>, kpiId: Uuid)
    requires UniqueIds(rows)
    requires |ListRelativeKpis(rows, kpiId)| == 2
    ensures ListRelativeKpis(rows, kpiId)[0].id != ListRelativeKpis(rows, kpiId)[1].id
  {
    var a, b, c := WithRank(rows, kpiId, 1), WithRank(rows, kpiId, 2), WithRank(rows, kpiId, 3);
    var listed := ListRelativeKpis(rows, kpiId);
    assert listed == a + b + c;
    if |a| == 2 {
      WithRankDistinct(rows, kpiId, 1);
    } else if |b| == 2 {
      WithRankDistinct(rows, kpiId, 2);
    } else if |c| == 2 {
      WithRankDistinct(rows, kpiId, 3);
    } else {
      // The two links have different ranks, hence different levels, hence come from different rows.
      var x, y := listed[0], listed[1];
      assert Rank(x.level) != Rank(y.level);
      if x.id == y.id {
        WithRankIdsDetermine(rows, kpiId, x, y);
      }
    }
  }

  /** Within one rank group, ids are pairwise distinct. */
  lemma {:induction false} WithRankDistinct(rows: seq<StoredLink>, kpiId: Uuid, rank: int)
    requires UniqueIds(rows)
    ensures forall i, j :: 0 <= i < j < |WithRank(rows, kpiId, rank)| ==>
      WithRank(rows, kpiId, rank)[i].id != WithRank(rows, kpiId, rank)[j].id
    decreases |rows|
  {
    if rows != [] {
      var init := rows[..|rows| - 1];
      assert UniqueIds(init);
      WithRankDistinct(init, kpiId, rank);
      var w := WithRank(init, kpiId, rank);
      forall i | 0 <= i < |w|
        ensures w[i].id != rows[|rows| - 1].link.id
      {
        WithRankFromRows(init, kpiId, rank, i);
      }
    }
  }

  /** Two links of any rank with the same id are the same row, so they have the same level. */
  lemma WithRankIdsDetermine(rows: seq<StoredLink>, kpiId: Uuid, x: RelativeKpi, y: RelativeKpi)
    requires UniqueIds(rows)
    requires x in ListRelativeKpis(rows, kpiId) && y in ListRelativeKpis(rows, kpiId)
    requires x.id == y.id
    ensures x == y
  {
    var jx := RowOf(rows, kpiId, x);
    var jy := RowOf(rows, kpiId, y);
  }

  /** The table position a listed link comes from. */
  lemma RowOf(rows: seq<StoredLink>, kpiId: Uuid, x: RelativeKpi) returns (j: nat)
    requires x in ListRelativeKpis(rows, kpiId)
    ensures j < |rows| && rows[j].link == x
  {
    var listed := ListRelativeKpis(rows, kpiId);
    var a, b, c := WithRank(rows, kpiId, 1), WithRank(rows, kpiId, 2), WithRank(rows, kpiId, 3);
    assert listed == a + b + c;
    var rank, i;
    if x in a {
      rank := 1;
      i :| 0 <= i < |a| && a[i] == x;
    } else if x in b {
      rank := 2;
      i :| 0 <= i < |b| && b[i] == x;
    } else {
      assert x in c;
      rank := 3;
      i :| 0 <= i < |c| && c[i] == x;
    }
    WithRankFromRows(rows, kpiId, rank, i);
    j :| 0 <= j < |rows| && rows[j].link == WithRank(rows, kpiId, rank)[i];
  }
}
