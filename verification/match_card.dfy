/** One row of the match history (frontend/src/components/MatchCard.tsx):
    the viewed player's line of a match, with the queue name, the creep
    score and how long ago the game ended. `now` is the clock's reading, in
    milliseconds, when the card is drawn. */
module MatchCard {
  import opened Wrappers
  import opened Strings
  import opened MatchTypes
  import ChampionTypes

  datatype Participant = Participant(
    puuid: string, championName: string,
    kills: nat, deaths: nat, assists: nat,
    totalMinionsKilled: int, neutralMinionsKilled: int,
    win: bool)

  datatype MatchInfo = MatchInfo(
    gameMode: string, queueId: int, gameDuration: int, gameEndTimestamp: int,
    participants: seq<Participant>)

  /** What the card shows. */
  datatype Card = Card(
    win: bool, kda: real, gameMode: string, duration: string,
    championIconUrl: string, cs: int, timeAgo: string)

  /** The card writes the 14.1.1 icon address out in full. */
  const ICON_URL_PREFIX: string := ChampionTypes.DDRAGON_CDN + "14.1.1" + ChampionTypes.ICON_PATH

  /** `participants.find(p => p.puuid === puuid)` */
  function FindParticipant(ps: seq<Participant>, puuid: string): (r: Option<Participant>)
    ensures r.None? <==> forall i :: 0 <= i < |ps| ==> ps[i].puuid != puuid
    ensures r.Some? ==> exists i :: 0 <= i < |ps| && ps[i] == r.value && ps[i].puuid == puuid
                                    && forall j :: 0 <= j < i ==> ps[j].puuid != puuid
  {
    if |ps| == 0 then None
    else if ps[0].puuid == puuid then Some(ps[0])
    else
      var r := FindParticipant(ps[1..], puuid);
      assert forall i :: 1 <= i < |ps| ==> ps[i] == ps[1..][i - 1];
      if r.Some? then
        var i :| 0 <= i < |ps[1..]| && ps[1..][i] == r.value && ps[1..][i].puuid == puuid
                 && forall j :: 0 <= j < i ==> ps[1..][j].puuid != puuid;
        assert ps[i + 1] == r.value;
        r
      else r
  }

  /** The queue's display name, or the game mode when the queue is unknown. */
  function GameMode(info: MatchInfo): string {
    if info.queueId in QUEUE_IDS && QUEUE_IDS[info.queueId] != "" then QUEUE_IDS[info.queueId]
    else info.gameMode
  }

  function CreepScore(p: Participant): int {
    p.totalMinionsKilled + p.neutralMinionsKilled
  }

  /** `n unit(s) ago` */
  function Ago(n: nat, unit: string): string {
    NatToString(n) + " " + unit + (if n > 1 then "s" else "") + " ago"
  }

  /** `getTimeAgo`: whole seconds, minutes, hours and days by successive
      floor divisions; the largest non-zero unit wins. */
  function TimeAgo(now: int, timestamp: int): string {
    var diff := now - timestamp;
    var seconds := diff / 1000;
    var minutes := seconds / 60;
    var hours := minutes / 60;
    var days := hours / 24;
    if days > 0 then Ago(days, "day")
    else if hours > 0 then Ago(hours, "hour")
    else if minutes > 0 then Ago(minutes, "minute")
    else "Just now"
  }

  /** `MatchCard`: nothing when the player is not in the match. */
  function RenderCard(info: MatchInfo, puuid: string, now: int): Option<Card> {
    match FindParticipant(info.participants, puuid)
    case None => None
    case Some(p) =>
      Some(Card(p.win, CalculateKda(p.kills, p.deaths, p.assists), GameMode(info),
                FormatGameDuration(info.gameDuration),
                ICON_URL_PREFIX + p.championName + ".png",
                CreepScore(p), TimeAgo(now, info.gameEndTimestamp)))
  }

  // ------------------------------------------------------------ properties

  /** The unit shown is the largest that fits in the elapsed time, in the
      plural when more than one; less than a minute, or a time in the
      future, is "Just now". */
  lemma TimeAgoUnits(now: int, timestamp: int)
    ensures var diff := now - timestamp;
            && (diff >= 86_400_000 ==> TimeAgo(now, timestamp) == Ago(diff / 86_400_000, "day"))
            && (3_600_000 <= diff < 86_400_000 ==> TimeAgo(now, timestamp) == Ago(diff / 3_600_000, "hour"))
            && (60_000 <= diff < 3_600_000 ==> TimeAgo(now, timestamp) == Ago(diff / 60_000, "minute"))
            && (diff < 60_000 ==> TimeAgo(now, timestamp) == "Just now")
  {
    var diff := now - timestamp;
    assert diff / 1000 / 60 == diff / 60_000;
    assert diff / 60_000 / 60 == diff / 3_600_000;
    assert diff / 3_600_000 / 24 == diff / 86_400_000;
  }

  /** The card is drawn exactly when the player took part, and then shows
      the line `FindParticipant` picks, the first with the player's puuid:
      their result, creep score (lane plus jungle minions), KDA, the
      champion's 14.1.1 icon, and the queue name falling back to the game
      mode. */
  lemma CardContents(info: MatchInfo, puuid: string, now: int)
    ensures RenderCard(info, puuid, now).None? <==> forall i :: 0 <= i < |info.participants| ==> info.participants[i].puuid != puuid
    ensures RenderCard(info, puuid, now).Some? ==>
              var c := RenderCard(info, puuid, now).value;
              var p := FindParticipant(info.participants, puuid).value;
              && p.puuid == puuid
              && c.win == p.win
              && c.cs == p.totalMinionsKilled + p.neutralMinionsKilled
              && c.kda == CalculateKda(p.kills, p.deaths, p.assists)
              && c.championIconUrl == ChampionTypes.ChampionIconUrl(p.championName, None)
              && c.gameMode == if info.queueId in QUEUE_IDS then QUEUE_IDS[info.queueId] else info.gameMode
  {
    QueueIdsExactly();
  }
}
