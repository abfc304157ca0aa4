/** The findings list: its summary over the scope, its facet-filtered rows, and
    one page of them. */
module Findings {
  import opened Options
  import opened Numbers
  import opened Sums
  import opened Filters
  import opened Sorting

  datatype Record = Record(cluster: string, namespace: string, resource: string, source: string, kind: string,
                           severity: string, control: string, rollup: bool, remediation: string, firstSeen: int)

  /** "" leaves a dimension alone. */
  datatype Facets = Facets(resource: string, namespace: string, source: string, kind: string, severity: string)

  // ---- scope and facets ----

  const VULNERABILITY := "vulnerability"
  const COMPLIANCE := "compliance"
  const RBAC := "rbac"
  const CONFIGURATION := "configuration"

  /** Each finding is under at most one sub-tab. */
  function SecurityGroup(r: Record): (g: string)
    ensures g == "vulnerability" <==> r.kind in {"cve", "exposed_secret"}
    ensures g == "compliance" <==> r.kind !in {"cve", "exposed_secret"} && r.control != ""
    ensures g == "rbac" <==> r.kind == "rbac_issue" && r.control == ""
    ensures g == "configuration" <==> r.kind in {"misconfig", "policy_violation"} && r.control == ""
  {
    if r.kind == "cve" || r.kind == "exposed_secret" then VULNERABILITY
    else if r.control != "" then COMPLIANCE
    else if r.kind == "rbac_issue" then RBAC
    else if r.kind == "misconfig" || r.kind == "policy_violation" then CONFIGURATION
    else ""
  }

  predicate MatchesSecurityGroup(r: Record, group: string) { group == "" || SecurityGroup(r) == group }

  /** What the caller asks about: the clusters it may read, and one sub-tab ("" is all). */
  datatype Scope = Scope(mayRead: string -> bool, group: string, dayAgo: int)

  predicate InScope(r: Record, s: Scope) { s.mayRead(r.cluster) && MatchesSecurityGroup(r, s.group) }

  /** An aggregate of findings stored one by one leaves the totals, but only where both are in view. */
  predicate Counted(r: Record, s: Scope) { InScope(r, s) && (!r.rollup || s.group != "") }

  predicate Passes(r: Record, f: Facets) {
    && (f.resource != "" ==> r.resource == f.resource)
    && (f.namespace != "" ==> r.namespace == f.namespace)
    && (f.source != "" ==> r.source == f.source)
    && (f.kind != "" ==> r.kind == f.kind)
    && (f.severity != "" ==> r.severity == f.severity)
  }

  // ---- the summary ----

  datatype Summary = Summary(scopeTotal: nat, bySeverity: map<string, int>, byCluster: map<string, map<string, int>>,
                             bySource: map<string, int>, byKind: map<string, int>, resolvable: nat, recent: nat,
                             rollups: nat, perResource: map<string, int>)

  const NOTHING := Summary(0, map[], map[], map[], map[], 0, 0, 0, map[])

  function BumpIn(m: map<string, map<string, int>>, c: string, k: string): map<string, map<string, int>> {
    m[c := Bump(if c in m then m[c] else map[], k)]
  }

  function ResourceKey(r: Record): string { r.cluster + "|" + r.namespace + "/" + r.resource }

  /** One finding of the scope taken into the summary. */
  function Take(m: Summary, r: Record, s: Scope): Summary {
    var counted := Counted(r, s);
    Summary(m.scopeTotal + 1,
            if counted then Bump(m.bySeverity, r.severity) else m.bySeverity,
            if counted && r.cluster != "" then BumpIn(m.byCluster, r.cluster, r.severity) else m.byCluster,
            if counted then Bump(m.bySource, r.source) else m.bySource,
            if counted then Bump(m.byKind, r.kind) else m.byKind,
            m.resolvable + if counted && r.remediation != "" then 1 else 0,
            m.recent + if counted && r.firstSeen > s.dayAgo then 1 else 0,
            m.rollups + if r.rollup then 1 else 0,
            if r.resource != "" then Bump(m.perResource, ResourceKey(r)) else m.perResource)
  }

  /** The summary of a scope; no facet and no page is in sight. */
  function Summarize(all: seq<Record>, s: Scope): Summary {
    if all == [] then NOTHING
    else
      var n := |all| - 1;
      var m := Summarize(all[..n], s);
      if InScope(all[n], s) then Take(m, all[n], s) else m
  }

  function Selected(all: seq<Record>, s: Scope, f: Facets): seq<Record> {
    Filter(all, (r: Record) => InScope(r, s) && Passes(r, f))
  }

  method Tally(was: Summary, r: Record, s: Scope) returns (m: Summary)
    requires InScope(r, s)
    ensures m == Take(was, r, s)
  {
    var bySeverity, byCluster, bySource, byKind := was.bySeverity, was.byCluster, was.bySource, was.byKind;
    var resolvable, recent, rollups, perResource := was.resolvable, was.recent, was.rollups, was.perResource;
    if !r.rollup || s.group != "" {
      bySeverity := Bump(bySeverity, r.severity);
      if r.cluster != "" { byCluster := BumpIn(byCluster, r.cluster, r.severity); }
      bySource := Bump(bySource, r.source);
      byKind := Bump(byKind, r.kind);
      if r.remediation != "" { resolvable := resolvable + 1; }
      if r.firstSeen > s.dayAgo { recent := recent + 1; }
    }
    if r.rollup { rollups := rollups + 1; }
    if r.resource != "" { perResource := Bump(perResource, ResourceKey(r)); }
    m := Summary(was.scopeTotal + 1, bySeverity, byCluster, bySource, byKind, resolvable, recent, rollups, perResource);
  }

  /** The rows are the findings the caller may read, of the sub-tab, that agree with every facet set. */
  method Scan(all: seq<Record>, s: Scope, f: Facets) returns (m: Summary, rows: seq<Record>)
    ensures m == Summarize(all, s)
    ensures rows == Selected(all, s, f)
    ensures rows == Filter(all, (r: Record) =>
              && s.mayRead(r.cluster) && (s.group == "" || SecurityGroup(r) == s.group)
              && f.resource in {"", r.resource} && f.namespace in {"", r.namespace} && f.source in {"", r.source}
              && f.kind in {"", r.kind} && f.severity in {"", r.severity})
  {
    m, rows := NOTHING, [];
    FilterAgrees(all, (r: Record) => InScope(r, s) && Passes(r, f), (r: Record) =>
      && s.mayRead(r.cluster) && (s.group == "" || SecurityGroup(r) == s.group)
      && f.resource in {"", r.resource} && f.namespace in {"", r.namespace} && f.source in {"", r.source}
      && f.kind in {"", r.kind} && f.severity in {"", r.severity});
    for i := 0 to |all|
      invariant m == Summarize(all[..i], s)
      invariant rows == Selected(all[..i], s, f)
    {
      var r := all[i];
      assert all[..i + 1][..i] == all[..i];
      if !s.mayRead(r.cluster) { continue; }
      if !MatchesSecurityGroup(r, s.group) { continue; }
      m := Tally(m, r, s);
      if f.resource != "" && r.resource != f.resource { continue; }
      if f.namespace != "" && r.namespace != f.namespace { continue; }
      if f.source != "" && r.source != f.source { continue; }
      if f.kind != "" && r.kind != f.kind { continue; }
      if f.severity != "" && r.severity != f.severity { continue; }
      rows := rows + [r];
    }
    assert all[..|all|] == all;
  }

  // ---- what the tallies mean ----

  /** How many findings satisfy p. */
  function Many(all: seq<Record>, p: Record -> bool): nat { |Filter(all, p)| }

  function At<K>(m: map<K, int>, k: K): int { if k in m then m[k] else 0 }

  lemma TakeAddsUp(m: Summary, r: Record, s: Scope)
    ensures var t, one := Take(m, r, s), if Counted(r, s) then 1 else 0;
            && Total(t.bySeverity) == Total(m.bySeverity) + one
            && Total(t.bySource) == Total(m.bySource) + one
            && Total(t.byKind) == Total(m.byKind) + one
  {
    Bumped(m.bySeverity, r.severity, 1);
    Bumped(m.bySource, r.source, 1);
    Bumped(m.byKind, r.kind, 1);
  }

  /** Severity, source and kind each add up to the scope, less the rollups where they would count twice. */
  lemma {:induction false} TalliesAddUp(all: seq<Record>, s: Scope)
    ensures var m := Summarize(all, s);
            var counted := m.scopeTotal - if s.group == "" then m.rollups else 0;
            Total(m.bySeverity) == counted && Total(m.bySource) == counted && Total(m.byKind) == counted
  {
    if all != [] {
      var n := |all| - 1;
      TalliesAddUp(all[..n], s);
      TakeAddsUp(Summarize(all[..n], s), all[n], s);
    }
  }

  /** Each count is of exactly the counted findings it names. */
  lemma {:induction false} SeveritiesCount(all: seq<Record>, s: Scope, k: string)
    ensures var m := Summarize(all, s);
            && m.scopeTotal ==
               Many(all, (r: Record) => s.mayRead(r.cluster) && (s.group == "" || SecurityGroup(r) == s.group))
            && At(m.bySeverity, k) ==
               Many(all, (r: Record) =>
                 && s.mayRead(r.cluster) && (s.group == "" || SecurityGroup(r) == s.group)
                 && (!r.rollup || s.group != "") && r.severity == k)
  {
    if all != [] { SeveritiesCount(all[..|all| - 1], s, k); }
  }

  lemma {:induction false} SourcesAndKindsCount(all: seq<Record>, s: Scope, k: string)
    ensures var m := Summarize(all, s);
            && At(m.bySource, k) == Many(all, (r: Record) => Counted(r, s) && r.source == k)
            && At(m.byKind, k) == Many(all, (r: Record) => Counted(r, s) && r.kind == k)
  {
    if all != [] { SourcesAndKindsCount(all[..|all| - 1], s, k); }
  }

  lemma {:induction false} KpisCount(all: seq<Record>, s: Scope)
    ensures var m := Summarize(all, s);
            && m.resolvable == Many(all, (r: Record) => Counted(r, s) && r.remediation != "")
            && m.recent == Many(all, (r: Record) => Counted(r, s) && r.firstSeen > s.dayAgo)
            && m.rollups == Many(all, (r: Record) => InScope(r, s) && r.rollup)
  {
    if all != [] { KpisCount(all[..|all| - 1], s); }
  }

  /** Workloads of different clusters, or of different namespaces, are never counted as one. */
  lemma ResourceKeysApart(a: Record, b: Record)
    requires '|' !in a.cluster && '|' !in b.cluster && '/' !in a.namespace && '/' !in b.namespace
    ensures ResourceKey(a) == ResourceKey(b) <==>
            a.cluster == b.cluster && a.namespace == b.namespace && a.resource == b.resource
  {
    var x, y := a.namespace + ("/" + a.resource), b.namespace + ("/" + b.resource);
    assert ResourceKey(a) == a.cluster + ("|" + x) && ResourceKey(b) == b.cluster + ("|" + y);
    if ResourceKey(a) == ResourceKey(b) {
      SplitAt(a.cluster, x, b.cluster, y, '|');
      SplitAt(a.namespace, a.resource, b.namespace, b.resource, '/');
    }
  }

  lemma {:induction false} ResourcesCount(all: seq<Record>, s: Scope, k: string)
    ensures var m := Summarize(all, s);
            && At(m.perResource, k) ==
               Many(all, (r: Record) => InScope(r, s) && r.resource != "" && ResourceKey(r) == k)
            && (k in m.perResource ==> m.perResource[k] > 0)
  {
    if all != [] { ResourcesCount(all[..|all| - 1], s, k); }
  }

  /** A cluster's severity count is of that cluster's counted findings; a finding without a cluster is in none. */
  lemma {:induction false} ClustersCount(all: seq<Record>, s: Scope, c: string, k: string)
    ensures var m := Summarize(all, s);
            At(if c in m.byCluster then m.byCluster[c] else map[], k) ==
            if c == "" then 0 else Many(all, (r: Record) => Counted(r, s) && r.cluster == c && r.severity == k)
  {
    if all != [] {
      ClustersCount(all[..|all| - 1], s, c, k);
    }
  }

  ghost function InClusters(m: map<string, map<string, int>>): map<string, int> {
    map c | c in m :: Total(m[c])
  }

  lemma BumpInTotal(m: map<string, map<string, int>>, c: string, k: string)
    ensures Total(InClusters(BumpIn(m, c, k))) == Total(InClusters(m)) + 1
  {
    Bumped(if c in m then m[c] else map[], k, 1);
    Bumped(InClusters(m), c, 1);
    assert InClusters(BumpIn(m, c, k)) == Bump(InClusters(m), c);
  }

  /** Folding the per-cluster tallies back gives the counted findings that name a cluster. */
  lemma {:induction false} ClustersFoldBack(all: seq<Record>, s: Scope)
    ensures Total(InClusters(Summarize(all, s).byCluster)) == Many(all, (r: Record) => Counted(r, s) && r.cluster != "")
  {
    if all == [] {
      assert InClusters(Summarize(all, s).byCluster) == map[];
    } else {
      var n := |all| - 1;
      ClustersFoldBack(all[..n], s);
      BumpInTotal(Summarize(all[..n], s).byCluster, all[n].cluster, all[n].severity);
    }
  }

  // ---- the workload carrying the most ----

  /** name has the most findings, the first by name among equals. */
  ghost predicate Heaviest(counts: map<string, int>, name: string, n: int) {
    && name in counts && counts[name] == n
    && forall k | k in counts && k != name :: counts[k] < n || (counts[k] == n && LexLess(name, k))
  }

  method TopResource(counts: map<string, int>) returns (name: string, n: int)
    requires forall k | k in counts :: counts[k] > 0
    ensures if counts == map[] then name == "" && n == 0 else Heaviest(counts, name, n)
  {
    var names := SortedNames(counts);
    name, n := "", 0;
    for i := 0 to |names|
      invariant i == 0 ==> name == "" && n == 0
      invariant i > 0 ==> name in names[..i] && counts[name] == n > 0
      invariant forall j | 0 <= j < i ::
          names[j] == name || counts[names[j]] < n || (counts[names[j]] == n && LexLess(name, names[j]))
    {
      assert names[i] in counts;
      if i > 0 {
        var j: nat :| j < i && names[j] == name;
        assert LexLess(name, names[i]) by { assert LexLess(names[j], names[i]); }
      }
      if counts[names[i]] > n { name, n := names[i], counts[names[i]]; }
    }
    assert names[..|names|] == names;
    if counts != map[] {
      var k :| k in counts;
      assert k in names;
      forall q | q in counts && q != name ensures counts[q] < n || (counts[q] == n && LexLess(name, q)) {
        assert q in names;
      }
    }
  }

  method SortedNames(counts: map<string, int>) returns (names: seq<string>)
    ensures forall k :: k in names <==> k in counts
    ensures forall i, j | 0 <= i < j < |names| :: LexLess(names[i], names[j])
  {
    names := [];
    var rest := counts.Keys;
    while rest != {}
      invariant rest <= counts.Keys && multiset(names) == multiset(counts.Keys - rest)
      decreases rest
    {
      var k :| k in rest;
      assert counts.Keys - (rest - {k}) == (counts.Keys - rest) + {k};
      names := names + [k];
      rest := rest - {k};
    }
    var sorted := SortBy(names, NameOrder);
    SortedOnce(sorted, counts.Keys);
    names := sorted;
  }

  function NameOrder(s: string): SortKey { SortKey(0, 0.0, s, "", "") }

  lemma SortedOnce(xs: seq<string>, keys: set<string>)
    requires multiset(xs) == multiset(keys) && InOrder(xs, NameOrder)
    ensures forall k :: k in xs <==> k in keys
    ensures forall i, j | 0 <= i < j < |xs| :: LexLess(xs[i], xs[j])
  {
    OnceEach(xs, keys);
    forall i, j | 0 <= i < j < |xs| ensures LexLess(xs[i], xs[j]) {
      assert !Below(NameOrder(xs[j]), NameOrder(xs[i]));
      LexTotal(xs[i], xs[j]);
    }
  }

  // ---- pages ----

  const FINDINGS_PAGE_SIZE := 25
  const FINDINGS_MAX_PAGE_SIZE := 200

  /** size rows from an offset on, as far as there are any. */
  function From(rows: seq<Record>, offset: nat, size: nat): seq<Record> {
    if offset >= |rows| then [] else rows[offset..Min(offset + size, |rows|)]
  }

  /** The page as meant: rows (page-1)*size up to page*size. */
  function PageOf(rows: seq<Record>, page: int, size: int): seq<Record>
    requires page >= 1 && size >= 1
  {
    From(rows, (page - 1) * size, size)
  }

  function Pages(rows: seq<Record>, pages: nat, size: int): seq<Record>
    requires size >= 1
  {
    if pages == 0 then [] else Pages(rows, pages - 1, size) + PageOf(rows, pages, size)
  }

  /** Pages one after the other are the rows, none lost and none twice, as far as they reach. */
  lemma {:induction false} PagesConcatenate(rows: seq<Record>, pages: nat, size: int)
    requires size >= 1
    ensures Pages(rows, pages, size) == rows[..Min(pages * size, |rows|)]
  {
    if pages > 0 {
      PagesConcatenate(rows, pages - 1, size);
      assert pages * size == (pages - 1) * size + size;
    }
  }

  const INT64 := 0x1_0000_0000_0000_0000

  /** Go's 64-bit result. */
  function Wrap(n: int): (r: int)
    ensures -0x8000_0000_0000_0000 <= r < 0x8000_0000_0000_0000
    ensures (n - r) % 0x1_0000_0000_0000_0000 == 0
  {
    var m := n % INT64;
    if m < INT64 / 2 then m else m - INT64
  }

  /** The handler's slice of the rows from an unwrapped offset; None where Go panics. */
  function SliceFrom(rows: seq<Record>, offset: int, size: int): Option<seq<Record>> {
    var start := Wrap(offset);
    if start >= |rows| then Some([])
    else if start < 0 then None
    else
      var end := Min(Wrap(start + size), |rows|);
      if end < start then None else Some(rows[start..end])
  }

  function SliceOf(rows: seq<Record>, page: int, size: int): Option<seq<Record>> {
    SliceFrom(rows, (page - 1) * size, size)
  }

  lemma SliceFromOffset(rows: seq<Record>, offset: nat, size: int)
    requires 1 <= size <= FINDINGS_MAX_PAGE_SIZE && |rows| < INT64 / 4
    ensures SliceFrom(rows, offset, size) == Some(From(rows, offset, size)) <==>
            offset < INT64 / 2 || Wrap(offset) >= |rows|
  {
  }

  /** The slice is the page exactly when the offset's 64-bit product is the true
      one, or is past the last row anyway. */
  lemma SliceIsPage(rows: seq<Record>, page: int, size: int)
    requires 1 <= page && 1 <= size <= FINDINGS_MAX_PAGE_SIZE && |rows| < INT64 / 4
    ensures SliceOf(rows, page, size) == Some(PageOf(rows, page, size)) <==>
            (page - 1) * size < INT64 / 2 || Wrap((page - 1) * size) >= |rows|
  {
    assert (page - 1) * size >= 0;
    SliceFromOffset(rows, (page - 1) * size, size);
  }

  /** A page number this large makes the offset negative. */
  lemma HugePagePanics(rows: seq<Record>)
    ensures SliceOf(rows, 368934881474191034, FINDINGS_PAGE_SIZE).None?
  {
  }

  datatype Request = Request(facets: Facets, page: Option<int>, pageSize: Option<int>)

  datatype Response = Response(summary: Summary, total: nat, affected: nat, topResource: string, topCount: int,
                               page: int, pageSize: int, findings: Option<seq<Record>>)

  /** The list as answered. The summary and the top resource are the scope's:
      two requests that differ in facets or page alone agree on them. */
  method HandleListFindings(all: seq<Record>, s: Scope, q: Request) returns (r: Response)
    ensures r.summary == Summarize(all, s)
    ensures r.affected == |r.summary.perResource|
    ensures if r.summary.perResource == map[] then r.topResource == "" && r.topCount == 0
            else Heaviest(r.summary.perResource, r.topResource, r.topCount)
    ensures r.total == |Selected(all, s, q.facets)|
    ensures r.page == (if q.page.Some? && q.page.value > 1 then q.page.value else 1)
    ensures r.pageSize == (if q.pageSize.Some? && 0 < q.pageSize.value <= 200 then q.pageSize.value else 25)
    ensures r.findings == SliceOf(Selected(all, s, q.facets), r.page, r.pageSize)
  {
    var page, pageSize := 1, FINDINGS_PAGE_SIZE;
    if q.page.Some? && q.page.value > 1 { page := q.page.value; }
    if q.pageSize.Some? && q.pageSize.value > 0 && q.pageSize.value <= FINDINGS_MAX_PAGE_SIZE {
      pageSize := q.pageSize.value;
    }
    var summary, rows := Scan(all, s, q.facets);
    forall k | k in summary.perResource ensures summary.perResource[k] > 0 { ResourcesCount(all, s, k); }
    var top, topCount := TopResource(summary.perResource);
    r := Response(summary, |rows|, |summary.perResource|, top, topCount, page, pageSize, SliceOf(rows, page, pageSize));
  }
}
