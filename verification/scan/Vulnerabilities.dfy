/** Vulnerability lists: parsing, counting, filtering and paging, totals per target
    (`internal/shared/domain/image_vulnerability.go`). */
module Vulnerabilities {
  import opened GoStrings
  import opened Sorting
  import opened Ordering
  import opened Severities
  import opened ScanReports

  datatype Kind = OS | Library | Other

  datatype Vulnerability = Vulnerability(id: string, pkg: string, installed: string, fixedVersion: string,
                                         severity: string, kind: Kind, target: string, url: string)

  function KindFromTrivy(name: string): Kind {
    match TrimSpace(name)
    case "os-pkgs" => OS
    case "lang-pkgs" => Library
    case _ => Other
  }

  // ---- parsing -------------------------------------------------------------------------------------------

  function Parsed(t: Target, f: Finding): Vulnerability {
    Vulnerability(TrimSpace(f.id), TrimSpace(f.pkg), TrimSpace(f.installed), TrimSpace(f.fixedVersion),
                  NormalizeSeverity(f.severity), KindFromTrivy(t.kind), TrimSpace(t.name), TrimSpace(f.url))
  }

  function ParsedTarget(t: Target, parse: (Target, Finding) -> Vulnerability): seq<Vulnerability> {
    seq(|t.findings|, i requires 0 <= i < |t.findings| => parse(t, t.findings[i]))
  }

  function ParsedAll(report: seq<Target>, parse: (Target, Finding) -> Vulnerability): seq<Vulnerability> {
    if report == [] then [] else ParsedAll(report[..|report| - 1], parse) + ParsedTarget(report[|report| - 1], parse)
  }

  method ParseTrivyVulnerabilities(report: seq<Target>) returns (out: seq<Vulnerability>)
    ensures out == ParsedAll(report, Parsed)
  {
    out := [];
    for i := 0 to |report|
      invariant out == ParsedAll(report[..i], Parsed)
    {
      var found := ParseTarget(report[i], Parsed);
      assert report[..i + 1][..i] == report[..i];
      out := out + found;
    }
    assert report[..|report|] == report;
  }

  method ParseTarget(t: Target, parse: (Target, Finding) -> Vulnerability) returns (out: seq<Vulnerability>)
    ensures out == ParsedTarget(t, parse)
  {
    out := [];
    for i := 0 to |t.findings|
      invariant out == ParsedTarget(t, parse)[..i]
    {
      out := out + [parse(t, t.findings[i])];
    }
  }

  /** An entry as a finding in this target is shown. */
  ghost predicate Reads(v: Vulnerability, t: Target, f: Finding) {
    && Trimmed(f.id, v.id) && Trimmed(f.pkg, v.pkg) && Trimmed(f.installed, v.installed)
    && Trimmed(f.fixedVersion, v.fixedVersion) && Trimmed(f.url, v.url) && Trimmed(t.name, v.target)
    && SeverityRank(v.severity) == SeverityRank(f.severity)
    && (v.kind == OS <==> Trimmed(t.kind, "os-pkgs")) && (v.kind == Library <==> Trimmed(t.kind, "lang-pkgs"))
  }

  lemma ParsedReads(t: Target, f: Finding)
    ensures Reads(Parsed(t, f), t, f)
  {
    TrimIsTrimmed(f.id);
    TrimIsTrimmed(f.pkg);
    TrimIsTrimmed(f.installed);
    TrimIsTrimmed(f.fixedVersion);
    TrimIsTrimmed(f.url);
    TrimIsTrimmed(t.name);
    NormalizedCounts(f.severity);
    TrimmedIff(t.kind, "os-pkgs");
    TrimmedIff(t.kind, "lang-pkgs");
    KindReads(t.kind);
    hide TrimSpace, Trimmed, SeverityRank, NormalizeSeverity, KindFromTrivy;
  }

  lemma KindReads(kind: string)
    ensures KindFromTrivy(kind) == OS <==> TrimSpace(kind) == "os-pkgs"
    ensures KindFromTrivy(kind) == Library <==> TrimSpace(kind) == "lang-pkgs"
  {
    hide TrimSpace;
    assert |"os-pkgs"| == 7 && |"lang-pkgs"| == 9;
  }

  /** The list has an entry for every finding, target by target in the order of the report, and no other. */
  lemma {:induction false} ParsedInOrder(report: seq<Target>, k: nat, i: nat)
    requires k < |report| && i < |report[k].findings|
    ensures var list, at := ParsedAll(report, Parsed), |Findings(report[..k])| + i;
              |list| == |Findings(report)| && at < |list| && Reads(list[at], report[k], report[k].findings[i])
  {
    var init, last := report[..|report| - 1], report[|report| - 1];
    ParsedSize(init, Parsed);
    hide Reads, Parsed;
    if k == |report| - 1 {
      ParsedReads(last, last.findings[i]);
    } else {
      ParsedInOrder(init, k, i);
      assert init[..k] == report[..k];
    }
  }

  lemma {:induction false} ParsedSize(report: seq<Target>, parse: (Target, Finding) -> Vulnerability)
    ensures |ParsedAll(report, parse)| == |Findings(report)|
  {
    if report != [] { ParsedSize(report[..|report| - 1], parse); }
  }

  // ---- counting a parsed list ------------------------------------------------------------------------------

  predicate Fixed(v: Vulnerability) {
    !Blank(v.fixedVersion)
  }

  function ListRank(v: Vulnerability, fixableOnly: bool): nat {
    if fixableOnly && !Fixed(v) then SKIPPED else CountedAs(v.severity)
  }

  function ListReader(fixableOnly: bool): Vulnerability -> nat {
    v => ListRank(v, fixableOnly)
  }

  function MapList(vs: seq<Vulnerability>, rank: Vulnerability -> nat): seq<nat> {
    seq(|vs|, i requires 0 <= i < |vs| => rank(vs[i]))
  }

  /** What `CountVulnerabilities` counts, over all or over the fixable only. */
  function ListCounts(vs: seq<Vulnerability>, fixableOnly: bool): SeverityCounts {
    Buckets(multiset(MapList(vs, ListReader(fixableOnly))))
  }

  /** If every finding, once parsed, is ranked as it was before, so is the whole list. */
  lemma {:induction false} RanksParsed(report: seq<Target>, parse: (Target, Finding) -> Vulnerability,
                                       list: Vulnerability -> nat, raw: Finding -> nat)
    requires forall f, t | f in Findings(report) :: list(parse(t, f)) == raw(f)
    ensures MapList(ParsedAll(report, parse), list) == Map(Findings(report), raw)
  {
    if report != [] {
      var init, t := report[..|report| - 1], report[|report| - 1];
      forall f | f in Findings(init) ensures f in Findings(report) {}
      RanksParsed(init, parse, list, raw);
      forall i | 0 <= i < |t.findings|
        ensures list(parse(t, t.findings[i])) == raw(t.findings[i]) { assert t.findings[i] in Findings(report); }
      assert MapList(ParsedTarget(t, parse), list) == Map(t.findings, raw);
      MapJoin(Findings(init), t.findings, raw);
      MapListJoin(ParsedAll(init, parse), ParsedTarget(t, parse), list);
    }
  }

  lemma MapListJoin(a: seq<Vulnerability>, b: seq<Vulnerability>, rank: Vulnerability -> nat)
    ensures MapList(a + b, rank) == MapList(a, rank) + MapList(b, rank)
  {
  }

  lemma TrimTwice(s: string)
    ensures TrimSpace(TrimSpace(s)) == TrimSpace(s)
  {
    TrimmedStays(TrimSpace(s));
  }

  lemma SeverityKept(severity: string)
    requires Plain(TrimSpace(severity))
    ensures CountedAs(NormalizeSeverity(severity)) == CountedAs(severity)
  {
    NormalizedCounts(severity);
    RanksAgree(severity);
  }

  lemma FixKept(t: Target, f: Finding)
    ensures Fixed(Parsed(t, f)) == Fixable(f)
  {
    TrimTwice(f.fixedVersion);
  }

  lemma ParsedRank(f: Finding, v: Vulnerability, fixableOnly: bool)
    requires CountedAs(v.severity) == CountedAs(f.severity) && Fixed(v) == Fixable(f)
    ensures ListReader(fixableOnly)(v) == Reader(fixableOnly)(f)
  {
  }

  lemma ParsedSeverity(t: Target, f: Finding, v: Vulnerability)
    requires v == Parsed(t, f) && Plain(TrimSpace(f.severity))
    ensures CountedAs(v.severity) == CountedAs(f.severity) && Fixed(v) == Fixable(f)
  {
    FixKept(t, f);
    SeverityKept(f.severity);
  }

  lemma ParsedKeeps(t: Target, f: Finding, v: Vulnerability, fixableOnly: bool)
    requires v == Parsed(t, f) && Plain(TrimSpace(f.severity))
    ensures ListReader(fixableOnly)(v) == Reader(fixableOnly)(f)
  {
    ParsedSeverity(t, f, v);
    ParsedRank(f, v, fixableOnly);
  }

  /** Counting the parsed list gives what counting the report gives, for severities without a dotless or dotted I. */
  lemma CountsAgree(report: seq<Target>, fixableOnly: bool)
    requires forall f | f in Findings(report) :: Plain(TrimSpace(f.severity))
    ensures ListCounts(ParsedAll(report, Parsed), fixableOnly) == CountsOf(Findings(report), fixableOnly)
  {
    forall f, t | f in Findings(report)
      ensures ListReader(fixableOnly)(Parsed(t, f)) ==
              Reader(fixableOnly)(f) { ParsedKeeps(t, f, Parsed(t, f), fixableOnly); }
    RanksParsed(report, Parsed, ListReader(fixableOnly), Reader(fixableOnly));
  }

  // ---- filtering and paging ----------------------------------------------------------------------------------

  const DEFAULT_PAGE_SIZE := 50
  const MAX_PAGE_SIZE := 200

  datatype Filter = Filter(severities: seq<string>, kind: seq<Kind>, fixableOnly: bool, query: string, limit: int,
                           offset: int)

  function Normalized(f: Filter): (n: Filter)
    ensures 0 < n.limit <= MAX_PAGE_SIZE && n.offset >= 0
    ensures n.limit == f.limit <==> 0 < f.limit <= MAX_PAGE_SIZE
    ensures n.limit in {f.limit, 50, 200} && (f.limit <= 0 ==> n.limit == 50)
    ensures n.offset in {f.offset, 0} && n.offset >= f.offset
  {
    f.(limit := if f.limit <= 0 then DEFAULT_PAGE_SIZE else if f.limit > MAX_PAGE_SIZE then MAX_PAGE_SIZE else f.limit,
       offset := if f.offset < 0 then 0 else f.offset)
  }

  predicate Contains(s: string, part: string) {
    part <= s || (s != "" && Contains(s[1..], part))
  }

  /** Whether a vulnerability is asked for; where the page starts and how long it is does not matter. */
  predicate Matches(f: Filter, v: Vulnerability) {
    && (f.severities == [] || exists s | s in f.severities :: NormalizeSeverity(s) == NormalizeSeverity(v.severity))
    && (f.kind == [] || v.kind in f.kind)
    && (f.fixableOnly ==> Fixed(v))
    && var q := ToLower(TrimSpace(f.query)); (q == "" || Contains(ToLower(v.id), q) || Contains(ToLower(v.pkg), q))
  }

  function Matching(vs: seq<Vulnerability>, wanted: Vulnerability -> bool): seq<Vulnerability> {
    if vs == [] then []
    else Matching(vs[..|vs| - 1], wanted) + if wanted(vs[|vs| - 1]) then [vs[|vs| - 1]] else []
  }

  function Unpaged(f: Filter): Filter {
    f.(limit := 0, offset := 0)
  }

  function Wanted(f: Filter): Vulnerability -> bool {
    var g := Unpaged(f); v => Matches(g, v)
  }

  function KeyOf(v: Vulnerability): Key {
    Key([SeverityRank(v.severity)], v.id, v.pkg)
  }

  /** More severe first, then by ID, then by package. */
  predicate NoLater(v: Vulnerability, w: Vulnerability) {
    var r, s := SeverityRank(v.severity), SeverityRank(w.severity);
    || r < s
    || (r == s && v.id != w.id && StringLeq(v.id, w.id))
    || (r == s && v.id == w.id && StringLeq(v.pkg, w.pkg))
  }

  lemma NoLaterIff(v: Vulnerability, w: Vulnerability)
    ensures By(KeyOf)(v, w) <==> NoLater(v, w)
  {
    OneLeq(SeverityRank(v.severity), SeverityRank(w.severity));
    hide SeverityRank;
    assert By(KeyOf)(v, w) == KeyLeq(KeyOf(v), KeyOf(w));
  }

  lemma SortedNoLater(vs: seq<Vulnerability>)
    requires Sorted(vs, By(KeyOf))
    ensures Sorted(vs, NoLater)
  {
    hide NoLater, By;
    forall i, j | 0 <= i < j < |vs| ensures NoLater(vs[i], vs[j]) { NoLaterIff(vs[i], vs[j]); }
  }

  /** Everything asked for, most severe first. */
  function Listing(vs: seq<Vulnerability>, f: Filter): seq<Vulnerability> {
    SortBy(Matching(vs, Wanted(f)), By(KeyOf))
  }

  function Page<T>(items: seq<T>, offset: nat, limit: nat): seq<T> {
    if offset >= |items| then [] else items[offset..if offset + limit > |items| then |items| else offset + limit]
  }

  method FilterVulnerabilities(vs: seq<Vulnerability>, filter: Filter) returns (items: seq<Vulnerability>, total: nat)
    ensures total == |Listing(vs, filter)|
    ensures items == Page(Listing(vs, filter), Normalized(filter).offset, Normalized(filter).limit)
  {
    var f := Normalized(filter);
    var matched := Collect(vs, Wanted(f));
    assert Unpaged(f) == Unpaged(filter);
    var sorted := SortBy(matched, By(KeyOf));
    assert sorted == Listing(vs, filter);
    hide Listing, Matching, SortBy, By, Matches;
    total := |sorted|;
    if f.offset >= total { return [], total; }
    var end := f.offset + f.limit;
    if end > total { end := total; }
    items := sorted[f.offset..end];
  }

  method Collect(vs: seq<Vulnerability>, wanted: Vulnerability -> bool) returns (matched: seq<Vulnerability>)
    ensures matched == Matching(vs, wanted)
  {
    matched := [];
    for i := 0 to |vs|
      invariant matched == Matching(vs[..i], wanted)
    {
      assert vs[..i + 1][..i] == vs[..i];
      if wanted(vs[i]) { matched := matched + [vs[i]]; }
    }
    assert vs[..|vs|] == vs;
  }

  // ---- what a filter selects -----------------------------------------------------------------------------------

  predicate HasAt(s: string, part: string, i: nat) {
    i + |part| <= |s| && s[i..i + |part|] == part
  }

  lemma HasAtHead(s: string, part: string)
    ensures HasAt(s, part, 0) <==> part <= s
  {
  }

  lemma HasAtTail(s: string, part: string, i: nat)
    requires s != ""
    ensures HasAt(s[1..], part, i) <==> HasAt(s, part, i + 1)
  {
    if i + 1 + |part| <= |s| { assert s[1..][i..i + |part|] == s[i + 1..i + 1 + |part|]; }
  }

  lemma {:induction false} ContainsIff(s: string, part: string)
    ensures Contains(s, part) <==> exists i: nat :: HasAt(s, part, i)
  {
    hide HasAt;
    HasAtHead(s, part);
    if s == "" {
      NowhereElse(part);
    } else {
      ContainsIff(s[1..], part);
      if i: nat :| HasAt(s[1..], part, i) { HasAtTail(s, part, i); }
      if i: nat :| HasAt(s, part, i) && i > 0 { HasAtTail(s, part, i - 1); }
    }
  }

  lemma NowhereElse(part: string)
    ensures forall i: nat | HasAt("", part, i) :: i == 0
  {
  }

  /** The query, trimmed and in lower case, occurs in the text in lower case. */
  ghost predicate Occurs(query: string, text: string) {
    exists i: nat :: HasAt(ToLower(text), ToLower(TrimSpace(query)), i)
  }

  lemma SeverityAsked(f: Filter, v: Vulnerability)
    ensures (exists s | s in f.severities :: NormalizeSeverity(s) == NormalizeSeverity(v.severity)) <==>
            (exists s | s in f.severities :: SeverityRank(s) == SeverityRank(v.severity))
  {
    forall s ensures NormalizeSeverity(s) == NormalizeSeverity(v.severity) <==>
                     SeverityRank(s) == SeverityRank(v.severity) { SameRank(s, v.severity); }
    hide NormalizeSeverity, SeverityRank;
  }

  lemma QueryAsked(query: string, text: string)
    ensures ToLower(TrimSpace(query)) == "" <==> AllSpace(query)
    ensures Contains(ToLower(text), ToLower(TrimSpace(query))) <==> Occurs(query, text)
  {
    BlankIff(query);
    assert |ToLower(TrimSpace(query))| == |TrimSpace(query)|;
    ContainsIff(ToLower(text), ToLower(TrimSpace(query)));
    hide ToLower, TrimSpace, Contains, HasAt, AllSpace;
  }

  /** An entry is selected exactly if it has one of the severities asked for, or none are, is of the kind asked for, is
      fixed somewhere if that is asked for, and its ID or its package holds the query, if that is not blank. */
  lemma SelectedIff(f: Filter, v: Vulnerability)
    ensures Matches(f, v) <==>
            && (f.severities == [] || exists s | s in f.severities :: SeverityRank(s) == SeverityRank(v.severity))
            && (f.kind == [] || v.kind in f.kind)
            && (f.fixableOnly ==> !AllSpace(v.fixedVersion))
            && (AllSpace(f.query) || Occurs(f.query, v.id) || Occurs(f.query, v.pkg))
  {
    SeverityAsked(f, v);
    BlankIff(v.fixedVersion);
    QueryAsked(f.query, v.id);
    QueryAsked(f.query, v.pkg);
    hide NormalizeSeverity, SeverityRank, TrimSpace, ToLower, Contains, AllSpace, Occurs, Blank;
  }

  lemma SameRank(s: string, t: string)
    ensures NormalizeSeverity(s) == NormalizeSeverity(t) <==> SeverityRank(s) == SeverityRank(t)
  {
    RankOfName(NormalizeSeverity(s));
    RankOfName(NormalizeSeverity(t));
  }

  lemma RankOfName(name: string)
    ensures Index(name, LIST_ORDER) < UNKNOWN_RANK ==> LIST_ORDER[Index(name, LIST_ORDER)] == name
  {
  }

  /** Filtering by one severity finds as many entries as are counted of it, over all or over what is fixed. */
  lemma FilteredAsCounted(vs: seq<Vulnerability>, name: string, rank: nat, f: Filter)
    requires rank < UNKNOWN_RANK && f.severities == [name] && SeverityRank(name) == rank
    requires f.kind == [] && AllSpace(f.query)
    requires forall v | v in vs :: Plain(TrimSpace(v.severity))
    ensures |Matching(vs, Wanted(f))| == ListCounts(vs, f.fixableOnly).At(rank)
  {
    hide Matching, Wanted, ListReader, Plain, AllSpace, SeverityRank;
    CountMatching(vs, Wanted(f), ListReader(f.fixableOnly), name, rank, f);
  }

  lemma {:induction false} CountMatching(vs: seq<Vulnerability>, wanted: Vulnerability -> bool,
                                         list: Vulnerability -> nat, name: string, rank: nat,
                                         f: Filter)
    requires wanted == Wanted(f) && list == ListReader(f.fixableOnly)
    requires rank < UNKNOWN_RANK && f.severities == [name] && SeverityRank(name) == rank
    requires f.kind == [] && AllSpace(f.query)
    requires forall v | v in vs :: Plain(TrimSpace(v.severity))
    ensures |Matching(vs, wanted)| == multiset(MapList(vs, list))[rank]
  {
    hide Wanted, ListReader, Plain, AllSpace, SeverityRank, TrimSpace;
    if vs != [] {
      var init, last := vs[..|vs| - 1], vs[|vs| - 1];
      CountMatching(init, wanted, list, name, rank, f);
      assert vs == init + [last];
      MapListJoin(init, [last], list);
      assert MapList([last], list) == [list(last)];
      WantedRank(last, name, rank, f);
    }
  }

  lemma AskedOne(f: Filter, name: string, rank: nat, v: Vulnerability)
    requires rank < UNKNOWN_RANK && f.severities == [name] && SeverityRank(name) == rank
    ensures (exists s | s in f.severities :: SeverityRank(s) == SeverityRank(v.severity)) <==>
            SeverityRank(v.severity) == rank
  {
    hide SeverityRank;
    assert f.severities[0] in f.severities;
  }

  lemma WantedRank(v: Vulnerability, name: string, rank: nat, f: Filter)
    requires rank < UNKNOWN_RANK && f.severities == [name] && SeverityRank(name) == rank
    requires f.kind == [] && AllSpace(f.query)
    requires Plain(TrimSpace(v.severity))
    ensures Wanted(f)(v) <==> ListReader(f.fixableOnly)(v) == rank
  {
    hide Matches, SeverityRank, CountedAs, Plain, AllSpace, Occurs, TrimSpace, ToUpper, ToLower, Blank;
    var g := Unpaged(f);
    SelectedIff(g, v);
    AskedOne(g, name, rank, v);
    PlainRank(v.severity);
    BlankIff(v.fixedVersion);
  }

  lemma PlainRank(severity: string)
    requires Plain(TrimSpace(severity))
    ensures CountedAs(severity) == SeverityRank(severity)
  {
    RanksAgree(severity);
  }

  // ---- all pages together --------------------------------------------------------------------------------------

  /** The pages from an offset on, one after the other. */
  function PagesFrom<T>(items: seq<T>, offset: nat, limit: nat): seq<T>
    requires limit > 0
    decreases if offset < |items| then |items| - offset else 0
  {
    if offset >= |items| then [] else Page(items, offset, limit) + PagesFrom(items, offset + limit, limit)
  }

  lemma {:induction false} PagesRest<T>(items: seq<T>, offset: nat, limit: nat)
    requires limit > 0
    ensures PagesFrom(items, offset, limit) == if offset >= |items| then [] else items[offset..]
    decreases if offset < |items| then |items| - offset else 0
  {
    if offset < |items| {
      PagesRest(items, offset + limit, limit);
      var end := if offset + limit > |items| then |items| else offset + limit;
      assert items[offset..] == items[offset..end] + items[end..];
    }
  }

  lemma {:induction false} MatchingIs(vs: seq<Vulnerability>, wanted: Vulnerability -> bool, v: Vulnerability)
    ensures multiset(Matching(vs, wanted))[v] == if wanted(v) then multiset(vs)[v] else 0
  {
    if vs != [] {
      MatchingIs(vs[..|vs| - 1], wanted, v);
      assert vs == vs[..|vs| - 1] + [vs[|vs| - 1]];
    }
  }

  lemma SortedListing(vs: seq<Vulnerability>, key: Vulnerability -> Key)
    ensures Sorted(SortBy(vs, By(key)), By(key)) && multiset(SortBy(vs, By(key))) == multiset(vs)
  {
    ByPreorder(key);
    SortSorted(vs, By(key));
  }

  /** Paging through from the start, a page length at a time, shows everything asked for, each entry as often as it
      occurs, in order of severity, ID and package. */
  lemma PagesShowAll(vs: seq<Vulnerability>, f: Filter)
    ensures var shown := PagesFrom(Listing(vs, f), 0, Normalized(f).limit);
            && shown == Listing(vs, f)
            && Sorted(shown, NoLater)
            && forall v :: multiset(shown)[v] == if Wanted(f)(v) then multiset(vs)[v] else 0
  {
    PagesRest(Listing(vs, f), 0, Normalized(f).limit);
    assert PagesFrom(Listing(vs, f), 0, Normalized(f).limit) == Listing(vs, f);
    SortedListing(Matching(vs, Wanted(f)), KeyOf);
    SortedNoLater(Listing(vs, f));
    forall v ensures multiset(Matching(vs, Wanted(f)))[v] ==
      if Wanted(f)(v) then multiset(vs)[v] else 0 { MatchingIs(vs, Wanted(f), v); }
  }

  /** An entry is on a page that starts at a multiple of the step. */
  ghost predicate Shown(i: nat, step: nat, limit: nat) {
    exists start: nat :: Multiple(start, step) && start <= i < start + limit
  }

  ghost predicate Multiple(n: nat, step: nat)
    decreases n
  {
    n == 0 || (0 < step <= n && Multiple(n - step, step))
  }

  lemma {:induction false} MultipleBelow(i: nat, step: nat) returns (start: nat)
    requires step > 0
    ensures Multiple(start, step) && start <= i < start + step
    decreases i
  {
    if i < step {
      start := 0;
    } else {
      start := MultipleBelow(i - step, step);
      start := start + step;
    }
  }

  lemma MultiplesApart(n: nat, step: nat)
    requires Multiple(n, step) && n > 0
    ensures n >= step > 0
  {
  }

  /** A client that steps by the length it asked for sees every entry exactly if that is no more than the length it
      gets, or everything fits on the first page. */
  lemma EveryEntryShownIff(total: nat, step: nat, limit: nat)
    requires step > 0 && limit > 0
    ensures (forall i: nat | i < total :: Shown(i, step, limit)) <==> step <= limit || total <= limit
  {
    if step <= limit {
      forall i: nat | i < total ensures Shown(i, step, limit) { var start := MultipleBelow(i, step); }
    } else if total <= limit {
      forall i: nat | i < total ensures Shown(i, step, limit) { assert Multiple(0, step); }
    } else {
      forall start: nat | Multiple(start, step) ensures !(start <= limit < start + limit) {
        if start > 0 { MultiplesApart(start, step); }
      }
      assert !Shown(limit, step, limit);
    }
  }

  /** Asking for more than the largest page and stepping by that: the entry after the first page is never shown. */
  lemma OverlongPagesSkip(f: Filter, total: nat)
    requires f.limit > 200 && total > 200
    ensures !forall i: nat | i < total :: Shown(i, f.limit, Normalized(f).limit)
  {
    EveryEntryShownIff(total, f.limit, Normalized(f).limit);
  }

  // ---- totals per target -----------------------------------------------------------------------------------------

  datatype TargetTotal = TargetTotal(target: string, kind: Kind, total: nat)

  function KeyOfTarget(v: Vulnerability): (Kind, string) {
    (v.kind, v.target)
  }

  function CountAt(vs: seq<Vulnerability>, key: (Kind, string)): nat {
    if vs == [] then 0 else CountAt(vs[..|vs| - 1], key) + if KeyOfTarget(vs[|vs| - 1]) == key then 1 else 0
  }

  function Total(ts: seq<TargetTotal>): nat {
    if ts == [] then 0 else Total(ts[..|ts| - 1]) + ts[|ts| - 1].total
  }

  function KeyOfTotal(t: TargetTotal): (Kind, string) {
    (t.kind, t.target)
  }

  ghost predicate Counts(ts: seq<TargetTotal>, vs: seq<Vulnerability>) {
    forall i | 0 <= i < |ts| :: ts[i].total == CountAt(vs, KeyOfTotal(ts[i])) && ts[i].total > 0
  }

  /** Where the entry of each target is, while the list is built. */
  ghost predicate Indexed(ts: seq<TargetTotal>, index: map<(Kind, string), nat>) {
    && (forall i | 0 <= i < |ts| :: KeyOfTotal(ts[i]) in index && index[KeyOfTotal(ts[i])] == i)
    && (forall k | k in index :: index[k] < |ts| && KeyOfTotal(ts[index[k]]) == k)
  }

  /** One entry per target that occurs, each with its own count; together they count the whole list. */
  ghost predicate Totals(ts: seq<TargetTotal>, vs: seq<Vulnerability>) {
    && (forall t | t in ts :: multiset(ts)[t] == 1 && t.total == CountAt(vs, KeyOfTotal(t)) && t.total > 0)
    && (forall t, u | t in ts && u in ts && KeyOfTotal(t) == KeyOfTotal(u) :: t == u)
    && (forall v | v in vs :: exists t | t in ts :: KeyOfTotal(t) == KeyOfTarget(v))
    && Total(ts) == |vs|
  }

  function KindRank(t: TargetTotal): Key {
    Key([match t.kind case OS => 0 case Library => 1 case Other => 2], "", "")
  }

  lemma {:induction false} TotalAt(ts: seq<TargetTotal>, i: nat, more: TargetTotal)
    requires i < |ts| && more.total == ts[i].total + 1
    ensures Total(ts[i := more]) == Total(ts) + 1
  {
    if i == |ts| - 1 {
      assert ts[i := more][..|ts| - 1] == ts[..|ts| - 1];
    } else {
      assert ts[i := more][..|ts| - 1] == ts[..|ts| - 1][i := more];
      TotalAt(ts[..|ts| - 1], i, more);
    }
  }

  lemma TotalSnoc(ts: seq<TargetTotal>, t: TargetTotal)
    ensures Total(ts + [t]) == Total(ts) + t.total
  {
    assert (ts + [t])[..|ts|] == ts;
  }

  lemma CountSnoc(vs: seq<Vulnerability>, v: Vulnerability, key: (Kind, string))
    ensures CountAt(vs + [v], key) == CountAt(vs, key) + if KeyOfTarget(v) == key then 1 else 0
  {
    assert (vs + [v])[..|vs|] == vs;
  }

  lemma {:induction false} CountZero(vs: seq<Vulnerability>, key: (Kind, string))
    ensures CountAt(vs, key) > 0 <==> exists v | v in vs :: KeyOfTarget(v) == key
  {
    if vs != [] {
      CountZero(vs[..|vs| - 1], key);
      assert vs == vs[..|vs| - 1] + [vs[|vs| - 1]];
    }
  }

  lemma TotalsBump(ts: seq<TargetTotal>, vs: seq<Vulnerability>, index: map<(Kind, string), nat>, v: Vulnerability,
                   i: nat)
    requires Counts(ts, vs) && Indexed(ts, index) && i < |ts| && KeyOfTotal(ts[i]) == KeyOfTarget(v)
    ensures var now := ts[i := ts[i].(total := ts[i].total + 1)];
              Counts(now, vs + [v]) && Indexed(now, index)
              && Total(now) == Total(ts) + 1
  {
    TotalAt(ts, i, ts[i].(total := ts[i].total + 1));
    forall k | 0 <= k < |ts| ensures CountAt(vs + [v], KeyOfTotal(ts[k])) == ts[k].total + if k == i then 1 else 0 {
      CountSnoc(vs, v, KeyOfTotal(ts[k]));
    }
  }

  lemma CountsNew(ts: seq<TargetTotal>, vs: seq<Vulnerability>, v: Vulnerability)
    requires Counts(ts, vs) && CountAt(vs, KeyOfTarget(v)) == 0
    ensures Counts(ts + [TargetTotal(v.target, v.kind, 1)], vs + [v])
  {
    CountSnoc(vs, v, KeyOfTarget(v));
    forall k | 0 <= k < |ts|
      ensures CountAt(vs + [v], KeyOfTotal(ts[k])) == ts[k].total { CountSnoc(vs, v, KeyOfTotal(ts[k])); }
  }

  lemma IndexedNew(ts: seq<TargetTotal>, index: map<(Kind, string), nat>, t: TargetTotal)
    requires Indexed(ts, index) && KeyOfTotal(t) !in index
    ensures Indexed(ts + [t], index[KeyOfTotal(t) := |ts|])
  {
  }

  lemma SameTarget(v: Vulnerability)
    ensures KeyOfTotal(TargetTotal(v.target, v.kind, 1)) == KeyOfTarget(v)
  {
  }

  /** The entries of a list, while it is gone through. */
  ghost predicate Tallied(ts: seq<TargetTotal>, vs: seq<Vulnerability>, index: map<(Kind, string), nat>) {
    Counts(ts, vs) && Indexed(ts, index) && Total(ts) == |vs| && forall v | v in vs :: KeyOfTarget(v) in index
  }

  lemma TalliedOld(ts: seq<TargetTotal>, vs: seq<Vulnerability>, index: map<(Kind, string), nat>, v: Vulnerability)
    requires Tallied(ts, vs, index) && KeyOfTarget(v) in index && index[KeyOfTarget(v)] < |ts|
    ensures var i := index[KeyOfTarget(v)]; Tallied(ts[i := ts[i].(total := ts[i].total + 1)], vs + [v], index)
  {
    TotalsBump(ts, vs, index, v, index[KeyOfTarget(v)]);
    hide CountAt, Total, Counts, Indexed;
  }

  lemma TalliedNew(ts: seq<TargetTotal>, vs: seq<Vulnerability>, index: map<(Kind, string), nat>, v: Vulnerability)
    requires Tallied(ts, vs, index) && KeyOfTarget(v) !in index
    ensures Tallied(ts + [TargetTotal(v.target, v.kind, 1)], vs + [v], index[KeyOfTarget(v) := |ts|])
  {
    var t := TargetTotal(v.target, v.kind, 1);
    CountZero(vs, KeyOfTarget(v));
    SameTarget(v);
    CountsNew(ts, vs, v);
    IndexedNew(ts, index, t);
    TotalSnoc(ts, t);
    hide CountAt, Total, Counts, Indexed, KeyOfTotal;
  }

  method TallyTargets(vs: seq<Vulnerability>) returns (out: seq<TargetTotal>, ghost index: map<(Kind, string), nat>)
    ensures Tallied(out, vs, index)
  {
    var places: map<(Kind, string), nat> := map[];
    out := [];
    for n := 0 to |vs|
      invariant Tallied(out, vs[..n], places)
    {
      hide CountAt, Total;
      var v := vs[n];
      assert vs[..n + 1] == vs[..n] + [v];
      if KeyOfTarget(v) in places {
        var i := places[KeyOfTarget(v)];
        TalliedOld(out, vs[..n], places, v);
        out := out[i := out[i].(total := out[i].total + 1)];
      } else {
        TalliedNew(out, vs[..n], places, v);
        places := places[KeyOfTarget(v) := |out|];
        out := out + [TargetTotal(v.target, v.kind, 1)];
      }
    }
    assert vs[..|vs|] == vs;
    index := places;
  }

  lemma {:induction false} TotalInsert(ts: seq<TargetTotal>, t: TargetTotal, le: (TargetTotal, TargetTotal) -> bool)
    ensures Total(Insert(ts, t, le)) == Total(ts) + t.total
  {
    if ts == [] {
      assert Total([t]) == Total([]) + t.total by { TotalSnoc([], t); }
    } else if le(ts[|ts| - 1], t) {
      TotalSnoc(ts, t);
    } else {
      TotalInsert(ts[..|ts| - 1], t, le);
      TotalSnoc(Insert(ts[..|ts| - 1], t, le), ts[|ts| - 1]);
    }
  }

  lemma {:induction false} TotalSort(ts: seq<TargetTotal>, le: (TargetTotal, TargetTotal) -> bool)
    ensures Total(SortBy(ts, le)) == Total(ts)
  {
    if ts != [] {
      TotalSort(ts[..|ts| - 1], le);
      TotalInsert(SortBy(ts[..|ts| - 1], le), ts[|ts| - 1], le);
    }
  }

  lemma {:induction false} IndexedOnce(ts: seq<TargetTotal>, t: TargetTotal)
    requires forall i, j | 0 <= i < j < |ts| :: KeyOfTotal(ts[i]) != KeyOfTotal(ts[j])
    ensures multiset(ts)[t] == if t in ts then 1 else 0
  {
    if ts != [] {
      IndexedOnce(ts[..|ts| - 1], t);
      assert ts == ts[..|ts| - 1] + [ts[|ts| - 1]];
    }
  }

  lemma TotalsSorted(ts: seq<TargetTotal>, vs: seq<Vulnerability>, index: map<(Kind, string), nat>,
                     le: (TargetTotal, TargetTotal) -> bool)
    requires Tallied(ts, vs, index)
    ensures Totals(SortBy(ts, le), vs)
  {
    var sorted := SortBy(ts, le);
    TotalSort(ts, le);
    forall t ensures t in sorted <==> t in ts { assert t in multiset(sorted) <==> t in multiset(ts); }
    forall t | t in sorted
      ensures multiset(sorted)[t] == 1 && t.total == CountAt(vs, KeyOfTotal(t)) && t.total > 0 { IndexedOnce(ts, t); }
    forall v | v in vs ensures exists t | t in sorted ::
      KeyOfTotal(t) == KeyOfTarget(v) { assert ts[index[KeyOfTarget(v)]] in sorted; }
  }

  /** The base image first, then libraries, then the rest. */
  ghost predicate KindsInOrder(ts: seq<TargetTotal>) {
    forall i, j | 0 <= i < j < |ts| :: (ts[j].kind == OS ==> ts[i].kind == OS)
                                       && (ts[i].kind == Other ==> ts[j].kind == Other)
  }

  lemma RankedInOrder(ts: seq<TargetTotal>)
    requires Sorted(ts, By(KindRank))
    ensures KindsInOrder(ts)
  {
    forall i, j | 0 <= i < j < |ts|
      ensures (ts[j].kind == OS ==> ts[i].kind == OS) && (ts[i].kind == Other ==> ts[j].kind == Other) {
      KindRanked(ts[i], ts[j]);
    }
  }

  lemma KindRanked(t: TargetTotal, u: TargetTotal)
    requires By(KindRank)(t, u)
    ensures (u.kind == OS ==> t.kind == OS) && (t.kind == Other ==> u.kind == Other)
  {
    assert By(KindRank)(t, u) == KeyLeq(KindRank(t), KindRank(u));
    OneLeq(KindRank(t).ranks[0], KindRank(u).ranks[0]);
    assert KindRank(t).ranks == [KindRank(t).ranks[0]] && KindRank(u).ranks == [KindRank(u).ranks[0]];
  }

  /** Totals per target, the base image first. */
  method SummarizeVulnerabilityTargets(vs: seq<Vulnerability>) returns (out: seq<TargetTotal>)
    ensures Totals(out, vs) && KindsInOrder(out)
  {
    ghost var index;
    var tallied;
    tallied, index := TallyTargets(vs);
    TotalsSorted(tallied, vs, index, By(KindRank));
    ByPreorder(KindRank);
    SortSorted(tallied, By(KindRank));
    RankedInOrder(SortBy(tallied, By(KindRank)));
    out := SortBy(tallied, By(KindRank));
  }
}
