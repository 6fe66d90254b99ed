/** Champion constants and Data Dragon image URLs of the frontend
    (frontend/src/types/champion.ts). */
module ChampionTypes {
  import opened Wrappers
  import opened Strings
  import Champions

  const DDRAGON_CDN: string := "https://ddragon.leagueoflegends.com/cdn/"
  const ICON_PATH: string := "/img/champion/"
  const SPLASH_PATH: string := "img/champion/splash/"
  const DEFAULT_ICON_VERSION: string := "14.1.1"

  const ROLES: seq<string> := ["top", "jungle", "mid", "adc", "support"]
  const TIER_RANKS: seq<string> := ["S+", "S", "A", "B", "C", "D"]

  /** `getChampionIconUrl`; an absent version means the default. */
  function ChampionIconUrl(championName: string, version: Option<string>): string {
    DDRAGON_CDN + version.GetOr(DEFAULT_ICON_VERSION) + ICON_PATH + championName + ".png"
  }

  /** `getChampionSplashUrl`; an absent skin number means skin 0. */
  function ChampionSplashUrl(championName: string, skinNum: Option<int>): string {
    DDRAGON_CDN + SPLASH_PATH + championName + "_" + IntToString(skinNum.GetOr(0)) + ".jpg"
  }

  // ------------------------------------------------------------ properties

  /** The icon URL starts with the CDN and the version and ends with the
      champion's file name; without a version it is 14.1.1's. */
  lemma IconUrlShape(championName: string, version: Option<string>)
    ensures var url := ChampionIconUrl(championName, version);
            && IsPrefix(DDRAGON_CDN + version.GetOr(DEFAULT_ICON_VERSION) + ICON_PATH, url)
            && url[|url| - |championName| - 4..] == championName + ".png"
    ensures ChampionIconUrl(championName, None) == ChampionIconUrl(championName, Some(DEFAULT_ICON_VERSION))
  {
  }

  /** For one version, different champions have different icon URLs. */
  lemma IconUrlInjective(a: string, b: string, version: Option<string>)
    requires ChampionIconUrl(a, version) == ChampionIconUrl(b, version)
    ensures a == b
  {
    var p := DDRAGON_CDN + version.GetOr(DEFAULT_ICON_VERSION) + ICON_PATH;
    var ua, ub := ChampionIconUrl(a, version), ChampionIconUrl(b, version);
    assert ua == p + a + ".png" && ub == p + b + ".png";
    assert |a| == |b|;
    assert a == ua[|p|..|p| + |a|];
  }

  /** The splash URL ends in `<name>_<skin>.jpg`, skin 0 by default, and for
      one champion different skins have different URLs. */
  lemma SplashUrlShape(championName: string, skinNum: Option<int>)
    ensures var url := ChampionSplashUrl(championName, skinNum);
            var tail := championName + "_" + IntToString(skinNum.GetOr(0)) + ".jpg";
            url[|url| - |tail|..] == tail
    ensures ChampionSplashUrl(championName, None) == ChampionSplashUrl(championName, Some(0))
  {
  }

  lemma SplashUrlSkinInjective(championName: string, i: int, j: int)
    requires ChampionSplashUrl(championName, Some(i)) == ChampionSplashUrl(championName, Some(j))
    ensures i == j
  {
    var p := DDRAGON_CDN + SPLASH_PATH + championName + "_";
    var si, sj := IntToString(i), IntToString(j);
    assert ChampionSplashUrl(championName, Some(i)) == p + si + ".jpg";
    assert ChampionSplashUrl(championName, Some(j)) == p + sj + ".jpg";
    assert si == ChampionSplashUrl(championName, Some(i))[|p|..|p| + |si|];
    IntToStringInjective(i, j);
  }

  /** The role picker offers exactly the roles the backend accepts, and the
      backend's tier labels are all among the ranks the table shows, which
      are pairwise different. */
  lemma RolesAndTiersAgree()
    ensures ROLES == Champions.VALID_ROLES
    ensures forall t :: t in Champions.TIERS ==> t in TIER_RANKS
    ensures forall i, j :: 0 <= i < j < |TIER_RANKS| ==> TIER_RANKS[i] != TIER_RANKS[j]
  {
  }
}
