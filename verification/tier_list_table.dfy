/** The tier-list page's table (frontend/src/components/TierListTable.tsx):
    the rows the backend sent, grouped by tier and drawn in `TIER_RANKS`
    order, each non-empty group under a heading with its size. */
module TierListTable {
  import opened RiotTypes
  import ChampionTypes
  import Champions

  /** A drawn group: its tier, its champions, and the count in its heading. */
  datatype Section = Section(tier: string, champions: seq<ChampionStats>, count: nat)

  /** `champions.filter(c => c.tier === tier)` */
  function Group(rows: seq<ChampionStats>, tier: string): seq<ChampionStats> {
    if |rows| == 0 then []
    else (if rows[0].tier == tier then [rows[0]] else []) + Group(rows[1..], tier)
  }

  /** The sections for `tiers`, in their order, skipping empty groups. */
  function SectionsOver(rows: seq<ChampionStats>, tiers: seq<string>): (r: seq<Section>)
    ensures forall k :: 0 <= k < |r| ==> r[k].tier in tiers && r[k].champions == Group(rows, r[k].tier)
    ensures forall k :: 0 <= k < |r| ==> |r[k].champions| > 0 && r[k].count == |r[k].champions|
  {
    if |tiers| == 0 then []
    else
      var g := Group(rows, tiers[0]);
      (if |g| == 0 then [] else [Section(tiers[0], g, |g|)]) + SectionsOver(rows, tiers[1..])
  }

  function Render(rows: seq<ChampionStats>): seq<Section> {
    SectionsOver(rows, ChampionTypes.TIER_RANKS)
  }

  /** The number of rows whose tier is among `tiers`. */
  function CountIn(rows: seq<ChampionStats>, tiers: seq<string>): nat {
    if |rows| == 0 then 0 else (if rows[0].tier in tiers then 1 else 0) + CountIn(rows[1..], tiers)
  }

  function SizeSum(sections: seq<Section>): nat {
    if |sections| == 0 then 0 else sections[0].count + SizeSum(sections[1..])
  }

  function Tiers(sections: seq<Section>): seq<string> {
    if |sections| == 0 then [] else [sections[0].tier] + Tiers(sections[1..])
  }

  predicate Distinct(tiers: seq<string>) {
    forall i, j :: 0 <= i < j < |tiers| ==> tiers[i] != tiers[j]
  }

  // ------------------------------------------------------------ properties

  /** A group holds exactly the rows of its tier, each as often as in the
      input. */
  lemma {:induction false} GroupMembers(rows: seq<ChampionStats>, tier: string, x: ChampionStats)
    ensures x in Group(rows, tier) <==> x in rows && x.tier == tier
    ensures x.tier == tier ==> multiset(Group(rows, tier))[x] == multiset(rows)[x]
    ensures x.tier != tier ==> multiset(Group(rows, tier))[x] == 0
  {
    if |rows| > 0 {
      GroupMembers(rows[1..], tier, x);
      assert rows == [rows[0]] + rows[1..];
    }
  }

  /** Grouping commutes with concatenation, so each group keeps the rows in
      their input order. */
  lemma {:induction false} GroupAppend(a: seq<ChampionStats>, b: seq<ChampionStats>, tier: string)
    ensures Group(a + b, tier) == Group(a, tier) + Group(b, tier)
  {
    if |a| > 0 {
      assert (a + b)[1..] == a[1..] + b;
      GroupAppend(a[1..], b, tier);
    } else {
      assert a + b == b;
    }
  }

  /** Over distinct tiers, the group sizes add up to the number of rows
      whose tier is one of them. */
  lemma {:induction false} GroupSizes(rows: seq<ChampionStats>, tiers: seq<string>)
    requires Distinct(tiers)
    ensures SizeSum(SectionsOver(rows, tiers)) == CountIn(rows, tiers)
  {
    if |tiers| > 0 {
      GroupSizes(rows, tiers[1..]);
      var g := Group(rows, tiers[0]);
      var head := if |g| == 0 then [] else [Section(tiers[0], g, |g|)];
      SizeSumAppend(head, SectionsOver(rows, tiers[1..]));
      CountSplit(rows, tiers);
    } else {
      CountNone(rows, tiers);
    }
  }

  lemma {:induction false} SizeSumAppend(a: seq<Section>, b: seq<Section>)
    ensures SizeSum(a + b) == SizeSum(a) + SizeSum(b)
  {
    if |a| > 0 {
      assert (a + b)[1..] == a[1..] + b;
      SizeSumAppend(a[1..], b);
    } else {
      assert a + b == b;
    }
  }

  /** Counting over `t :: rest` counts the rows of tier `t` and then those of
      `rest`, `t` not being in `rest`. */
  lemma {:induction false} CountSplit(rows: seq<ChampionStats>, tiers: seq<string>)
    requires |tiers| > 0 && Distinct(tiers)
    ensures CountIn(rows, tiers) == |Group(rows, tiers[0])| + CountIn(rows, tiers[1..])
  {
    if |rows| > 0 {
      CountSplit(rows[1..], tiers);
      if rows[0].tier == tiers[0] {
        assert rows[0].tier !in tiers[1..] by {
          forall j | 0 <= j < |tiers[1..]| ensures tiers[1..][j] != tiers[0] {
            assert tiers[1..][j] == tiers[j + 1];
          }
        }
      } else {
        assert rows[0].tier in tiers <==> rows[0].tier in tiers[1..] by {
          assert tiers == [tiers[0]] + tiers[1..];
        }
      }
    }
  }

  lemma {:induction false} CountNone(rows: seq<ChampionStats>, tiers: seq<string>)
    requires |tiers| == 0
    ensures CountIn(rows, tiers) == 0
  {
    if |rows| > 0 {
      CountNone(rows[1..], tiers);
    }
  }

  /** The sections come in the order of `tiers`: their tiers are `tiers`
      with the empty ones dropped. */
  lemma {:induction false} SectionOrder(rows: seq<ChampionStats>, tiers: seq<string>)
    ensures Tiers(SectionsOver(rows, tiers)) == NonEmptyTiers(rows, tiers)
  {
    if |tiers| > 0 {
      SectionOrder(rows, tiers[1..]);
      var g := Group(rows, tiers[0]);
      var head := if |g| == 0 then [] else [Section(tiers[0], g, |g|)];
      TiersAppend(head, SectionsOver(rows, tiers[1..]));
    }
  }

  /** `tiers` without those no row has. */
  function NonEmptyTiers(rows: seq<ChampionStats>, tiers: seq<string>): seq<string> {
    if |tiers| == 0 then []
    else (if |Group(rows, tiers[0])| == 0 then [] else [tiers[0]]) + NonEmptyTiers(rows, tiers[1..])
  }

  lemma {:induction false} TiersAppend(a: seq<Section>, b: seq<Section>)
    ensures Tiers(a + b) == Tiers(a) + Tiers(b)
  {
    if |a| > 0 {
      assert (a + b)[1..] == a[1..] + b;
      TiersAppend(a[1..], b);
    } else {
      assert a + b == b;
    }
  }

  /** The backend's placeholder list is drawn whole: all its tiers are
      ranks of the table, so the headings add up to its length. */
  lemma MockListDrawnWhole(data: ChampionData, role: string, jitter: nat -> int)
    ensures SizeSum(Render(Champions.GenerateMockTierList(data, role, jitter)))
            == |Champions.GenerateMockTierList(data, role, jitter)|
  {
    var list := Champions.GenerateMockTierList(data, role, jitter);
    Champions.MockTierListShape(data, role, jitter);
    ChampionTypes.RolesAndTiersAgree();
    forall k | 0 <= k < |list| ensures list[k].tier in ChampionTypes.TIER_RANKS {
      var i :| 0 <= i < Champions.MockSize(data) && list[k] == Champions.MockRow(data.data[i], i, role, jitter);
    }
    GroupSizes(list, ChampionTypes.TIER_RANKS);
    CountAll(list, ChampionTypes.TIER_RANKS);
  }

  lemma {:induction false} CountAll(rows: seq<ChampionStats>, tiers: seq<string>)
    requires forall k :: 0 <= k < |rows| ==> rows[k].tier in tiers
    ensures CountIn(rows, tiers) == |rows|
  {
    if |rows| > 0 {
      CountAll(rows[1..], tiers);
    }
  }
}
