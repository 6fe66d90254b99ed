/** The search box of the frontend (frontend/src/services/summonerService.ts):
    a Riot ID typed as `GameName#TAG` is split at its one `#` and checked
    against the length limits of Riot IDs. */
module SearchInput {
  import opened Wrappers
  import opened Strings

  datatype RiotId = RiotId(gameName: string, tagLine: string)

  /** The reasons a search is refused, each shown with its own message. */
  datatype InputError = EmptyInput | BadFormat | NameLength | TagLength

  datatype Validation = Valid | Invalid(error: InputError)

  function Message(e: InputError): string {
    match e
    case EmptyInput => "Please enter a summoner name"
    case BadFormat => "Invalid format. Use: GameName#TAG (e.g., HideOnBush#KR1)"
    case NameLength => "Game name must be 3-16 characters"
    case TagLength => "Tag line must be 3-5 characters"
  }

  /** `parseSummonerInput` */
  function ParseSummonerInput(input: string): Option<RiotId> {
    var trimmed := Trim(input);
    if '#' !in trimmed then None
    else
      var parts := Split(trimmed, '#');
      if |parts| != 2 then None
      else if parts[0] == "" || parts[1] == "" then None
      else Some(RiotId(Trim(parts[0]), Trim(parts[1])))
  }

  /** `validateSummonerInput`; lengths are JavaScript string lengths, in
      UTF-16 code units. */
  function ValidateSummonerInput(input: string): Validation {
    if Trim(input) == "" then Invalid(EmptyInput)
    else
      match ParseSummonerInput(input)
      case None => Invalid(BadFormat)
      case Some(id) =>
        if Utf16Length(id.gameName) < 3 || Utf16Length(id.gameName) > 16 then Invalid(NameLength)
        else if Utf16Length(id.tagLine) < 3 || Utf16Length(id.tagLine) > 5 then Invalid(TagLength)
        else Valid
  }

  // ------------------------------------------------------------ properties

  /** A string that splits into exactly two parts has one separator, and the
      parts are what lies before and after it. */
  lemma TwoParts(s: string, sep: char) returns (k: nat)
    requires |Split(s, sep)| == 2
    ensures k < |s| && s[k] == sep && sep !in s[..k] && sep !in s[k + 1..]
    ensures Split(s, sep) == [s[..k], s[k + 1..]]
  {
    OccurrencesZero(s, sep);
    var i :| 0 <= i < |s| && s[i] == sep;
    k := FirstIndex(s, sep, i);
    assert sep !in s[..k];
    SplitAt(s, k, sep);
    SplitNoSep(s[..k], sep);
    OccurrencesZero(s[k + 1..], sep);
    SplitNoSep(s[k + 1..], sep);
  }

  /** The first occurrence of `c`, given one at `i`. */
  lemma {:induction false} FirstIndex(s: string, c: char, i: nat) returns (k: nat)
    requires i < |s| && s[i] == c
    ensures k <= i && s[k] == c && forall j :: 0 <= j < k ==> s[j] != c
  {
    if exists j :: 0 <= j < i && s[j] == c {
      var j :| 0 <= j < i && s[j] == c;
      k := FirstIndex(s, c, j);
    } else {
      k := i;
    }
  }

  /** The parse fails exactly when the trimmed input has no `#`, more than
      one, or nothing on one side of it. */
  lemma ParseFailsExactly(input: string)
    ensures ParseSummonerInput(input).None? <==>
              var t := Trim(input);
              || Occurrences(t, '#') != 1
              || Split(t, '#')[0] == "" || Split(t, '#')[1] == ""
  {
    OccurrencesZero(Trim(input), '#');
  }

  /** A parsed Riot ID has two non-empty, `#`-free parts without surrounding
      white space: the trimmed input begins and ends with a visible
      character, which the first and last parts carry. */
  lemma ParsedPartsWellFormed(input: string)
    requires ParseSummonerInput(input).Some?
    ensures var id := ParseSummonerInput(input).value;
            && id.gameName != "" && id.tagLine != ""
            && '#' !in id.gameName && '#' !in id.tagLine
            && Trim(id.gameName) == id.gameName && Trim(id.tagLine) == id.tagLine
  {
    var x, y := ParsedSides(input);
    TrimmedParts(x, y);
  }

  /** The two sides of the `#` a successful parse cut the trimmed input
      at: non-empty, `#`-free, the first with a visible first character and
      the second with a visible last one. */
  lemma ParsedSides(input: string) returns (x: string, y: string)
    requires ParseSummonerInput(input).Some?
    ensures ParseSummonerInput(input).value == RiotId(Trim(x), Trim(y))
    ensures x != "" && y != "" && '#' !in x && '#' !in y
    ensures !IsJsSpace(x[0]) && !IsJsSpace(y[|y| - 1])
  {
    var t := Trim(input);
    var k := TwoParts(t, '#');
    x, y := t[..k], t[k + 1..];
    ParseParts(input, t, k);
    VisibleParts(t, k);
  }

  /** Two non-empty `#`-free parts, the first with a visible first
      character and the second with a visible last one, trim to non-empty
      `#`-free parts that trimming leaves alone. */
  lemma TrimmedParts(x: string, y: string)
    requires x != "" && y != "" && '#' !in x && '#' !in y
    requires !IsJsSpace(x[0]) && !IsJsSpace(y[|y| - 1])
    ensures var id := RiotId(Trim(x), Trim(y));
            && id.gameName != "" && id.tagLine != ""
            && '#' !in id.gameName && '#' !in id.tagLine
            && Trim(id.gameName) == id.gameName && Trim(id.tagLine) == id.tagLine
  {
    TrimmedPart(x);
    TrimmedPart(y);
  }

  /** A successful parse of `input`, whose trimmed form splits at `k`,
      yields the trimmed sides of `k`, both non-empty. */
  lemma ParseParts(input: string, t: string, k: nat)
    requires t == Trim(input) && k < |t|
    requires Split(t, '#') == [t[..k], t[k + 1..]]
    requires ParseSummonerInput(input).Some?
    ensures ParseSummonerInput(input).value == RiotId(Trim(t[..k]), Trim(t[k + 1..]))
    ensures t[..k] != "" && t[k + 1..] != ""
  {
  }

  /** Cutting a string with visible ends at `k` leaves the part before `k`
      a visible first character and the part after it a visible last one. */
  lemma VisibleParts(t: string, k: nat)
    requires t == [] || (!IsJsSpace(t[0]) && !IsJsSpace(t[|t| - 1]))
    requires k < |t| && t[..k] != "" && t[k + 1..] != ""
    ensures !IsJsSpace(t[..k][0]) && !IsJsSpace(t[k + 1..][|t[k + 1..]| - 1])
  {
    assert t[..k][0] == t[0];
    assert t[k + 1..][|t[k + 1..]| - 1] == t[|t| - 1];
  }

  /** A `#`-free part that begins or ends with a visible character trims
      to a non-empty, `#`-free string that trimming leaves alone. */
  lemma TrimmedPart(p: string)
    requires p != "" && '#' !in p
    requires !IsJsSpace(p[0]) || !IsJsSpace(p[|p| - 1])
    ensures Trim(p) != "" && '#' !in Trim(p) && Trim(Trim(p)) == Trim(p)
  {
    if !IsJsSpace(p[0]) {
      assert p[0] in p;
    } else {
      assert p[|p| - 1] in p;
    }
    TrimKeeps(p);
    TrimSubstring(p);
    TrimOfUnpadded(Trim(p));
  }

  /** What `Trim` keeps is a slice, so it adds no character. */
  lemma TrimSubstring(s: string)
    ensures forall c :: c in Trim(s) ==> c in s
  {
    var a := TrimStartIndex(s, 0);
    SliceMembers(s, a, TrimEndIndex(s, a, |s|));
  }

  /** A slice holds only characters of the whole. */
  lemma SliceMembers(s: string, a: nat, b: nat)
    requires a <= b <= |s|
    ensures forall c :: c in s[a..b] ==> c in s
  {
    forall c | c in s[a..b] ensures c in s {
      var i :| 0 <= i < b - a && s[a..b][i] == c;
      assert s[a + i] == c;
    }
  }

  /** `a#b` parses back into `a` and `b` when both are non-empty, already
      trimmed and `#`-free. */
  lemma ParseRoundTrip(a: string, b: string)
    requires a != "" && b != "" && '#' !in a && '#' !in b
    requires Trim(a) == a && Trim(b) == b
    ensures ParseSummonerInput(a + "#" + b) == Some(RiotId(a, b))
  {
    var s := a + "#" + b;
    TrimmedEnds(a);
    TrimmedEnds(b);
    JoinedUnpadded(a, b);
    JoinedSides(a, b);
    ParseOfTrimmed(s, |a|);
  }

  /** A non-empty string that trimming leaves alone has visible ends. */
  lemma TrimmedEnds(p: string)
    requires p != "" && Trim(p) == p
    ensures !IsJsSpace(p[0]) && !IsJsSpace(p[|p| - 1])
  {
  }

  /** Joining two strings with visible ends by `#` gives a string that
      trimming leaves alone. */
  lemma JoinedUnpadded(a: string, b: string)
    requires a != "" && b != ""
    requires !IsJsSpace(a[0]) && !IsJsSpace(b[|b| - 1])
    ensures Trim(a + "#" + b) == a + "#" + b
  {
    var s := a + "#" + b;
    assert s[0] == a[0] && s[|s| - 1] == b[|b| - 1];
    TrimOfUnpadded(s);
  }

  /** The sides of the `#` in `a#b` are `a` and `b`. */
  lemma JoinedSides(a: string, b: string)
    ensures |a| < |a + "#" + b| && (a + "#" + b)[|a|] == '#'
    ensures (a + "#" + b)[..|a|] == a && (a + "#" + b)[|a| + 1..] == b
  {
    var s := a + "#" + b;
    assert s[..|a|] == a && s[|a| + 1..] == b;
  }

  /** An untrimmable input with a single `#` at `k`, something on both
      sides, parses into the trimmed sides. */
  lemma ParseOfTrimmed(s: string, k: nat)
    requires Trim(s) == s
    requires k < |s| && s[k] == '#' && '#' !in s[..k] && '#' !in s[k + 1..]
    requires s[..k] != "" && s[k + 1..] != ""
    ensures ParseSummonerInput(s) == Some(RiotId(Trim(s[..k]), Trim(s[k + 1..])))
  {
    SplitAtSingle(s, '#', k);
  }

  /** White space alone asks for a name; otherwise the input is valid
      exactly when it parses and both parts have the allowed lengths, and
      the first failing check names the error. */
  lemma ValidationOutcomes(input: string)
    ensures Trim(input) == "" <==> ValidateSummonerInput(input) == Invalid(EmptyInput)
    ensures ValidateSummonerInput(input) == Valid <==>
              && ParseSummonerInput(input).Some?
              && 3 <= Utf16Length(ParseSummonerInput(input).value.gameName) <= 16
              && 3 <= Utf16Length(ParseSummonerInput(input).value.tagLine) <= 5
    ensures Trim(input) != "" && ParseSummonerInput(input).None? ==> ValidateSummonerInput(input) == Invalid(BadFormat)
  {
  }
}
