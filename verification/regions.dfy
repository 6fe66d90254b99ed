/** The fixed region table (backend/src/types/riot.ts): a short region code
    maps to a platform host fragment (per-shard data) and a routing host
    fragment (regional routing), plus the frontend's list of region codes. */
module Regions {
  import opened Wrappers

  datatype RiotRegion = RiotRegion(platform: string, region: string)

  /** RIOT_REGIONS, keyed by region code. */
  const RIOT_REGIONS: map<string, RiotRegion> := map[
    "na" := RiotRegion("na1", "americas"),
    "euw" := RiotRegion("euw1", "europe"),
    "eune" := RiotRegion("eun1", "europe"),
    "kr" := RiotRegion("kr", "asia"),
    "br" := RiotRegion("br1", "americas"),
    "jp" := RiotRegion("jp1", "asia"),
    "lan" := RiotRegion("la1", "americas"),
    "las" := RiotRegion("la2", "americas"),
    "oce" := RiotRegion("oc1", "sea"),
    "tr" := RiotRegion("tr1", "europe"),
    "ru" := RiotRegion("ru", "europe")
  ]

  /** The keys of RIOT_REGIONS in declaration order, the order in which
      `Object.values(RIOT_REGIONS)` visits the entries. */
  const REGION_ORDER: seq<string> := ["na", "euw", "eune", "kr", "br", "jp", "lan", "las", "oce", "tr", "ru"]

  /** The frontend's REGIONS list (frontend/src/types/api.ts). */
  const FRONTEND_REGIONS: seq<string> := ["na", "euw", "eune", "kr", "br", "jp", "lan", "las", "oce", "tr", "ru"]

  /** The four routing hosts the client registers by name. */
  const ROUTING_HOSTS: set<string> := {"americas", "asia", "europe", "sea"}

  /** `RIOT_REGIONS[code]`: the entry, or nothing for an unknown code. */
  function Lookup(code: string): (r: Option<RiotRegion>)
    ensures r.Some? <==> code in RIOT_REGIONS
    ensures r.Some? ==> r.value.region in ROUTING_HOSTS
  {
    if code in RIOT_REGIONS then
      RoutingValuesAreRoutingHosts();
      Some(RIOT_REGIONS[code])
    else None
  }

  lemma RoutingValuesAreRoutingHosts()
    ensures forall c :: c in RIOT_REGIONS ==> RIOT_REGIONS[c].region in ROUTING_HOSTS
  {
  }

  /** The table has exactly the eleven documented keys, and the frontend
      offers the same eleven codes in the same order as the declaration. */
  lemma TableKeys()
    ensures RIOT_REGIONS.Keys == {"na", "euw", "eune", "kr", "br", "jp", "lan", "las", "oce", "tr", "ru"}
    ensures forall i :: 0 <= i < |REGION_ORDER| ==> REGION_ORDER[i] in RIOT_REGIONS
    ensures forall c :: c in RIOT_REGIONS ==> c in REGION_ORDER
    ensures FRONTEND_REGIONS == REGION_ORDER
  {
  }

  /** The declaration order lists each of the eleven codes once. */
  lemma RegionOrderDistinct()
    ensures |REGION_ORDER| == 11
    ensures forall i, j :: 0 <= i < j < |REGION_ORDER| ==> REGION_ORDER[i] != REGION_ORDER[j]
  {
  }

  /** No two regions share a platform. */
  lemma PlatformsDistinct()
    ensures forall a, b :: a in RIOT_REGIONS && b in RIOT_REGIONS && a != b
              ==> RIOT_REGIONS[a].platform != RIOT_REGIONS[b].platform
  {
  }

  /** A region's platform is never one of the routing hosts: the two host
      groups are not conflated. */
  lemma PlatformIsNotRouting()
    ensures forall a :: a in RIOT_REGIONS ==> RIOT_REGIONS[a].platform !in ROUTING_HOSTS
    ensures forall a :: a in RIOT_REGIONS ==> RIOT_REGIONS[a].platform != RIOT_REGIONS[a].region
  {
  }

  /** The set of platform fragments, as `Object.values(...).map(r => r.platform)`. */
  function Platforms(): (ps: set<string>)
    ensures forall c :: c in RIOT_REGIONS ==> RIOT_REGIONS[c].platform in ps
    ensures forall p :: p in ps ==> exists c :: c in RIOT_REGIONS && RIOT_REGIONS[c].platform == p
  {
    set c | c in RIOT_REGIONS :: RIOT_REGIONS[c].platform
  }
}
