/** Severities as the counters read them, in upper case (`internal/shared/domain/image_scan_report.go`), and as the
    lists read them, in lower case (`internal/shared/domain/image_vulnerability.go`). */
module Severities {
  import opened GoStrings

  /** Most severe first. */
  const ORDER := ["CRITICAL", "HIGH", "MEDIUM", "LOW"]
  const LIST_ORDER := ["critical", "high", "medium", "low"]
  const UNKNOWN := "unknown"
  const UNKNOWN_RANK := 4

  /** The first place of a name in a list of names; past the end if it is not there. */
  function Index(name: string, names: seq<string>): (r: nat)
    ensures r <= |names|
    ensures r < |names| ==> names[r] == name
    ensures r == |names| <==> name !in names
  {
    if names == [] then 0 else if names[0] == name then 0 else 1 + Index(name, names[1..])
  }

  /** The bucket a severity is counted in. */
  function CountedAs(severity: string): (r: nat)
    ensures r <= UNKNOWN_RANK
  {
    Index(ToUpper(TrimSpace(severity)), ORDER)
  }

  function NormalizeSeverity(severity: string): string {
    var s := ToLower(TrimSpace(severity));
    if s in LIST_ORDER then s else UNKNOWN
  }

  /** The bucket a severity is listed in. */
  function SeverityRank(severity: string): (r: nat)
    ensures r <= UNKNOWN_RANK
  {
    Index(NormalizeSeverity(severity), LIST_ORDER)
  }

  /** No dotless or dotted I, which only one of the two cases makes an ASCII letter. */
  predicate Plain(s: string) {
    '\U{131}' !in s && '\U{130}' !in s
  }

  // ---- one word in the two cases ----------------------------------------------------------------------------

  /** Letters other than K and S, which other characters can become as well. */
  predicate Cases(upper: string, lower: string) {
    |upper| == |lower| > 0 && forall i | 0 <= i < |upper| ::
         'A' <= upper[i] <= 'Z' && upper[i] != 'K'
         && upper[i] != 'S' && lower[i] == upper[i] + ' '
  }

  /** The two ways to read a letter agree, but for the two I. */
  lemma LettersAgree(c: char, upper: char)
    requires 'A' <= upper <= 'Z' && upper != 'K' && upper != 'S'
    ensures c != '\U{131}' && c != '\U{130}' ==> (Upper(c) == upper <==> Lower(c) == upper + ' ')
    ensures c == '\U{131}' ==> Lower(c) != upper + ' '
    ensures c == '\U{130}' ==> Upper(c) != upper
  {
  }

  lemma WordsAgree(s: string, upper: string, lower: string)
    requires Cases(upper, lower)
    ensures Plain(s) ==> (ToUpper(s) == upper <==> ToLower(s) == lower)
    ensures !Plain(s) ==> !(ToUpper(s) == upper && ToLower(s) == lower)
  {
    if |s| == |upper| {
      forall i | 0 <= i < |s|
        ensures s[i] != '\U{131}' && s[i] != '\U{130}' ==> (ToUpper(s)[i] == upper[i] <==> ToLower(s)[i] == lower[i])
        ensures s[i] == '\U{131}' ==> ToLower(s)[i] != lower[i]
        ensures s[i] == '\U{130}' ==> ToUpper(s)[i] != upper[i]
      {
        LettersAgree(s[i], upper[i]);
      }
      if ToUpper(s) == upper && Plain(s) { assert ToLower(s) == lower; }
      if ToLower(s) == lower && Plain(s) { assert ToUpper(s) == upper; }
    }
  }

  predicate Letters(s: string) {
    s != "" && forall i | 0 <= i < |s| :: 'a' <= s[i] <= 'z'
  }

  lemma LettersStay(s: string)
    requires Letters(s)
    ensures TrimSpace(s) == s && ToLower(s) == s && Plain(s)
  {
    TrimmedStays(s);
  }

  ghost predicate AllCases(uppers: seq<string>, lowers: seq<string>) {
    |uppers| == |lowers| && forall i | 0 <= i < |uppers| :: Cases(uppers[i], lowers[i])
  }

  lemma {:induction false} IndexAgrees(s: string, uppers: seq<string>, lowers: seq<string>)
    requires AllCases(uppers, lowers) && Plain(s)
    ensures Index(ToUpper(s), uppers) == Index(ToLower(s), lowers)
  {
    if uppers != [] {
      WordsAgree(s, uppers[0], lowers[0]);
      IndexAgrees(s, uppers[1..], lowers[1..]);
    }
  }

  lemma OrdersCorrespond()
    ensures AllCases(ORDER, LIST_ORDER)
  {
    assert Cases("CRITICAL", "critical") && Cases("HIGH", "high") && Cases("MEDIUM", "medium") && Cases("LOW", "low");
  }

  // ---- in words ---------------------------------------------------------------------------------------------

  lemma IndexIff(name: string, a: string, b: string, c: string, d: string)
    requires a != b && a != c && a != d && b != c && b != d && c != d
    ensures Index(name, [a, b, c, d]) == 0 <==> name == a
    ensures Index(name, [a, b, c, d]) == 1 <==> name == b
    ensures Index(name, [a, b, c, d]) == 2 <==> name == c
    ensures Index(name, [a, b, c, d]) == 3 <==> name == d
  {
    var names := [a, b, c, d];
    assert names[0] == a && names[1] == b && names[2] == c && names[3] == d;
  }

  /** Which words are counted where: whatever the case, and whatever spaces stand around them. */
  lemma CountedAsIff(severity: string)
    ensures CountedAs(severity) == 0 <==> Spells(TrimSpace(severity), "CRITICAL", ReadsUpper)
    ensures CountedAs(severity) == 1 <==> Spells(TrimSpace(severity), "HIGH", ReadsUpper)
    ensures CountedAs(severity) == 2 <==> Spells(TrimSpace(severity), "MEDIUM", ReadsUpper)
    ensures CountedAs(severity) == 3 <==> Spells(TrimSpace(severity), "LOW", ReadsUpper)
  {
    hide TrimSpace, ToUpper, Spells;
    var s := TrimSpace(severity);
    UpperSpells(s, "CRITICAL");
    UpperSpells(s, "HIGH");
    UpperSpells(s, "MEDIUM");
    UpperSpells(s, "LOW");
    assert |"CRITICAL"| == 8 && |"HIGH"| == 4 && |"MEDIUM"| == 6 && |"LOW"| == 3;
    IndexIff(ToUpper(s), "CRITICAL", "HIGH", "MEDIUM", "LOW");
  }

  /** Which words are listed where. */
  lemma SeverityRankIff(severity: string)
    ensures SeverityRank(severity) == 0 <==> Spells(TrimSpace(severity), "critical", ReadsLower)
    ensures SeverityRank(severity) == 1 <==> Spells(TrimSpace(severity), "high", ReadsLower)
    ensures SeverityRank(severity) == 2 <==> Spells(TrimSpace(severity), "medium", ReadsLower)
    ensures SeverityRank(severity) == 3 <==> Spells(TrimSpace(severity), "low", ReadsLower)
  {
    ListedRank(severity);
    hide TrimSpace, ToLower, Spells, SeverityRank, NormalizeSeverity;
    var s := TrimSpace(severity);
    LowerSpells(s, "critical");
    LowerSpells(s, "high");
    LowerSpells(s, "medium");
    LowerSpells(s, "low");
    assert |"critical"| == 8 && |"high"| == 4 && |"medium"| == 6 && |"low"| == 3;
    IndexIff(ToLower(s), "critical", "high", "medium", "low");
  }

  // ---- the two readings ------------------------------------------------------------------------------------

  lemma ListedRank(severity: string)
    ensures SeverityRank(severity) == Index(ToLower(TrimSpace(severity)), LIST_ORDER)
  {
    UnknownIsNoWord();
  }

  lemma UnknownIsNoWord()
    ensures UNKNOWN !in LIST_ORDER
  {
    assert forall i | 0 <= i < 4 :: |LIST_ORDER[i]| != |UNKNOWN|;
  }

  /** A severity is counted where it is listed exactly if it holds no dotless or dotted I, or is no severity's name in
      either case. */
  lemma RanksAgree(severity: string)
    ensures CountedAs(severity) == SeverityRank(severity) <==>
            Plain(TrimSpace(severity))
              || (ToUpper(TrimSpace(severity)) !in ORDER && ToLower(TrimSpace(severity)) !in LIST_ORDER)
  {
    var s := TrimSpace(severity);
    OrdersCorrespond();
    ListedRank(severity);
    assert CountedAs(severity) == UNKNOWN_RANK <==> ToUpper(s) !in ORDER;
    assert SeverityRank(severity) == UNKNOWN_RANK <==> ToLower(s) !in LIST_ORDER;
    if Plain(s) {
      IndexAgrees(s, ORDER, LIST_ORDER);
    } else if CountedAs(severity) < UNKNOWN_RANK {
      WordsAgree(s, ORDER[CountedAs(severity)], LIST_ORDER[CountedAs(severity)]);
    }
  }

  /** A normalized severity is counted where it is listed. */
  lemma NormalizedCounts(severity: string)
    ensures CountedAs(NormalizeSeverity(severity)) == SeverityRank(severity) ==
            SeverityRank(NormalizeSeverity(severity))
  {
    var n := NormalizeSeverity(severity);
    NormalizedLetters(severity);
    LettersStay(n);
    OrdersCorrespond();
    IndexAgrees(n, ORDER, LIST_ORDER);
    ListedRank(n);
  }

  lemma WordLetters(word: string, uppers: seq<string>, lowers: seq<string>)
    requires AllCases(uppers, lowers) && word in lowers
    ensures Letters(word)
  {
    var i :| 0 <= i < |lowers| && lowers[i] == word;
    assert Cases(uppers[i], lowers[i]);
  }

  lemma UnknownLetters()
    ensures Letters(UNKNOWN)
  {
  }

  lemma NormalizedLetters(severity: string)
    ensures Letters(NormalizeSeverity(severity))
  {
    OrdersCorrespond();
    UnknownLetters();
    if NormalizeSeverity(severity) in LIST_ORDER { WordLetters(NormalizeSeverity(severity), ORDER, LIST_ORDER); }
  }

  lemma DotlessIsNoWord(s: string, uppers: seq<string>, lowers: seq<string>)
    requires AllCases(uppers, lowers) && '\U{131}' in s
    ensures ToLower(s) !in lowers
  {
    var i :| 0 <= i < |s| && s[i] == '\U{131}';
    assert ToLower(s)[i] == '\U{131}';
    forall k | 0 <= k < |lowers| ensures lowers[k] != ToLower(s) { assert Cases(uppers[k], lowers[k]); }
  }

  /** With a dotless I: counted as a known severity, listed as unknown. */
  lemma DotlessDisagrees(severity: string)
    requires ToUpper(TrimSpace(severity)) in ORDER && '\U{131}' in TrimSpace(severity)
    ensures CountedAs(severity) < UNKNOWN_RANK && SeverityRank(severity) == UNKNOWN_RANK
  {
    OrdersCorrespond();
    ListedRank(severity);
    DotlessIsNoWord(TrimSpace(severity), ORDER, LIST_ORDER);
  }

  lemma DotlessReads(upper: string, lower: string, k: nat)
    requires Cases(upper, lower) && k < |upper| && upper[k] == 'I'
    ensures ToUpper(upper[k := '\U{131}']) == upper && TrimSpace(upper[k := '\U{131}']) == upper[k := '\U{131}']
  {
    TrimmedStays(upper[k := '\U{131}']);
  }

  lemma HighIsAWord()
    ensures Cases("HIGH", "high") && "HIGH" in ORDER
  {
    assert ORDER[1] == "HIGH";
  }

  lemma DotlessHigh() returns (severity: string)
    ensures severity == "HIGH"[1 := '\U{131}'] && ToUpper(TrimSpace(severity)) in ORDER
            && '\U{131}' in TrimSpace(severity)
  {
    HighIsAWord();
    severity := "HIGH"[1 := '\U{131}'];
    DotlessReads("HIGH", "high", 1);
    assert severity[1] == '\U{131}';
  }

  /** Such as HIGH with a dotless I. */
  lemma ReadingsDisagree() returns (severity: string)
    ensures severity == "HIGH"[1 := '\U{131}'] && CountedAs(severity) != SeverityRank(severity)
  {
    severity := DotlessHigh();
    DotlessDisagrees(severity);
  }
}
