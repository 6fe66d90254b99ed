/** The colour of the KDA figure (frontend/src/components/KDABadge.tsx). */
module KdaBadge {
  import MatchTypes

  datatype KdaColor = Gray | Blue | Green | Yellow

  function ColorClass(c: KdaColor): string {
    match c
    case Gray => "text-gray-400"
    case Blue => "text-blue-400"
    case Green => "text-green-400"
    case Yellow => "text-yellow-400"
  }

  /** The thresholds are checked from the highest down. */
  function KdaColorOf(kda: real): KdaColor {
    if kda >= 5.0 then Yellow
    else if kda >= 3.0 then Green
    else if kda >= 2.0 then Blue
    else Gray
  }

  /** The rank of a colour, from gray to yellow. */
  function Rank(c: KdaColor): nat {
    match c
    case Gray => 0
    case Blue => 1
    case Green => 2
    case Yellow => 3
  }

  /** Each colour covers one band: [5, ∞), [3, 5), [2, 3) and below 2. */
  lemma ColorBands(kda: real)
    ensures KdaColorOf(kda) == Yellow <==> kda >= 5.0
    ensures KdaColorOf(kda) == Green <==> 3.0 <= kda < 5.0
    ensures KdaColorOf(kda) == Blue <==> 2.0 <= kda < 3.0
    ensures KdaColorOf(kda) == Gray <==> kda < 2.0
  {
  }

  /** A better KDA never gets a lower colour. */
  lemma ColorMonotone(a: real, b: real)
    requires a <= b
    ensures Rank(KdaColorOf(a)) <= Rank(KdaColorOf(b))
  {
  }

  /** A deathless game with at least five kills and assists is yellow. */
  lemma PerfectGameColor(kills: nat, assists: nat)
    ensures KdaColorOf(MatchTypes.CalculateKda(kills, 0, assists)) == Yellow <==> kills + assists >= 5
  {
  }
}
