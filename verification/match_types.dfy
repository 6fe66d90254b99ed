/** Match helpers of the frontend (frontend/src/types/match.ts): queue
    names, the KDA ratio and the `m:ss` game duration. */
module MatchTypes {
  import opened Wrappers
  import opened Strings

  /** `QUEUE_IDS`: display names of the queues the site knows. */
  const QUEUE_IDS: map<int, string> := map[
    420 := "Ranked Solo/Duo",
    440 := "Ranked Flex",
    400 := "Normal Draft",
    430 := "Normal Blind",
    450 := "ARAM",
    900 := "URF",
    1020 := "One For All",
    1300 := "Nexus Blitz"]

  /** `(k + a) / d` rounded to two decimals, halves up. */
  function RoundTo2(x: real): real {
    (x * 100.0 + 0.5).Floor as real / 100.0
  }

  /** `calculateKDA`: kills plus assists when there are no deaths, else their
      ratio to deaths rounded to two decimals. */
  function CalculateKda(kills: nat, deaths: nat, assists: nat): real {
    if deaths == 0 then (kills + assists) as real
    else RoundTo2((kills + assists) as real / deaths as real)
  }

  /** JavaScript's `%`: the remainder takes the sign of the dividend. */
  function JsRem(a: int, b: nat): (r: int)
    requires b > 0
    ensures a >= 0 ==> r == a % b
    ensures -(b as int) < r < b
  {
    if a >= 0 then a % b else -((-a) % b)
  }

  /** `formatGameDuration`: floored minutes, then the remainder padded to two
      characters. */
  function FormatGameDuration(seconds: int): string {
    var minutes := seconds / 60;
    var secs := JsRem(seconds, 60);
    IntToString(minutes) + ":" + PadStart(IntToString(secs), 2, '0')
  }

  // ------------------------------------------------------------ properties

  /** The queue table names exactly eight queues. */
  lemma QueueIdsExactly()
    ensures QUEUE_IDS.Keys == {400, 420, 430, 440, 450, 900, 1020, 1300}
    ensures forall q :: q in QUEUE_IDS ==> QUEUE_IDS[q] != ""
  {
  }

  /** A deathless game's KDA is kills plus assists; otherwise the KDA is
      within half a hundredth of the exact ratio. */
  lemma KdaValue(kills: nat, deaths: nat, assists: nat)
    ensures deaths == 0 ==> CalculateKda(kills, deaths, assists) == (kills + assists) as real
    ensures deaths > 0 ==>
              var exact := (kills + assists) as real / deaths as real;
              exact - 0.005 < CalculateKda(kills, deaths, assists) <= exact + 0.005
  {
  }

  /** The two characters of `n < 60` padded to width two, and their value. */
  lemma {:induction false} TwoDigits(n: nat)
    requires n < 60
    ensures var p := PadStart(IntToString(n), 2, '0');
            && |p| == 2 && IsDigit(p[0]) && IsDigit(p[1])
            && DigitsValue(p) == n
  {
    var p := PadStart(IntToString(n), 2, '0');
    if n < 10 {
      assert IntToString(n) == [DigitChar(n)];
      assert p == ['0', DigitChar(n)];
      assert p[..1] == ['0'];
      assert p[..1][..0] == [];
      assert DigitsValue(p[..1]) == 0;
    } else {
      assert NatToString(n / 10) == [DigitChar(n / 10)];
      assert p == [DigitChar(n / 10), DigitChar(n % 10)];
      assert p[..1] == [DigitChar(n / 10)];
      assert p[..1][..0] == [];
      assert DigitsValue(p[..1]) == n / 10;
    }
  }

  predicate AllDigits(s: string) {
    forall i :: 0 <= i < |s| ==> IsDigit(s[i])
  }

  /** Reads `m:ss` back: digits, a colon, then two digits worth less than
      60. */
  function ParseDuration(f: string): (r: Option<nat>)
    ensures r.Some? ==> |f| >= 4 && f[|f| - 3] == ':'
  {
    if |f| >= 4 && f[|f| - 3] == ':' && AllDigits(f[..|f| - 3]) && AllDigits(f[|f| - 2..])
       && DigitsValue(f[|f| - 2..]) < 60
    then Some(60 * DigitsValue(f[..|f| - 3]) + DigitsValue(f[|f| - 2..]))
    else None
  }

  /** Round trip for a non-negative duration: the text is the minutes, a
      colon and two digits below 60, and reading it back gives the duration. */
  lemma DurationRoundTrip(seconds: nat)
    ensures ParseDuration(FormatGameDuration(seconds)) == Some(seconds)
  {
    var m := NatToString(seconds / 60);
    var p := PadStart(IntToString(seconds % 60), 2, '0');
    assert IntToString(seconds / 60) == m;
    assert JsRem(seconds, 60) == seconds % 60;
    assert FormatGameDuration(seconds) == m + ":" + p;
    TwoDigits(seconds % 60);
    NatToStringRoundTrip(seconds / 60);
    ParseFields(m, p);
  }

  lemma ParseFields(m: string, p: string)
    requires |m| >= 1 && AllDigits(m) && |p| == 2 && AllDigits(p) && DigitsValue(p) < 60
    ensures ParseDuration(m + ":" + p) == Some(60 * DigitsValue(m) + DigitsValue(p))
  {
    var f := m + ":" + p;
    assert |f| == |m| + 3 && f[|m|] == ':';
    assert f[..|f| - 3] == m && f[|f| - 2..] == p;
    ParseSplit(f, m, p);
  }

  /** `ParseDuration` on a text already known to split into minutes, a
      colon and seconds. */
  lemma ParseSplit(f: string, minutes: string, seconds: string)
    requires |f| >= 4 && f[|f| - 3] == ':'
    requires f[..|f| - 3] == minutes && f[|f| - 2..] == seconds
    requires AllDigits(minutes) && AllDigits(seconds) && DigitsValue(seconds) < 60
    ensures ParseDuration(f) == Some(60 * DigitsValue(minutes) + DigitsValue(seconds))
  {
  }
}
