/** Naming the object behind an address: which cluster, and which of the
    objects that answer there. */
module FleetNaming {
  import opened Options
  import opened Numbers
  import opened FleetTypes
  import opened Filters
  import opened Sorting

  // ---- one cluster's objects ----

  /** What makes two reports the same object. */
  function Identity(a: ExternalAddress): (string, Kind, string, string) {
    (a.address, a.kind, a.namespace, a.name)
  }

  function Identities(addrs: Addresses): set<(string, Kind, string, string)> {
    set a | a in addrs :: Identity(a)
  }

  /** What a cluster exposes at an address, each object once, as first reported. */
  function ObjectsAt(addrs: Addresses, k: string): (r: Addresses)
    ensures forall o | o in r :: o in addrs && o.address == k
  {
    if addrs == [] then []
    else
      var n := |addrs| - 1;
      assert addrs == addrs[..n] + [addrs[n]];
      var r := ObjectsAt(addrs[..n], k);
      if addrs[n].address != k || Identity(addrs[n]) in Identities(addrs[..n]) then r else r + [addrs[n]]
  }

  predicate FirstReport(addrs: Addresses, i: nat)
    requires i < |addrs|
  {
    forall j | 0 <= j < i :: !(addrs[j].address == addrs[i].address && addrs[j].kind == addrs[i].kind
                               && addrs[j].namespace == addrs[i].namespace && addrs[j].name == addrs[i].name)
  }

  lemma FirstReportIs(addrs: Addresses, a: ExternalAddress)
    ensures FirstReport(addrs + [a], |addrs|) <==> Identity(a) !in Identities(addrs)
  {
    var all := addrs + [a];
    if Identity(a) in Identities(addrs) {
      var b :| b in addrs && Identity(b) == Identity(a);
      var j :| 0 <= j < |addrs| && addrs[j] == b;
      assert all[j] == b;
    } else {
      forall j | 0 <= j < |addrs| ensures Identity(all[j]) in Identities(addrs) {
        assert all[j] in addrs;
      }
    }
  }

  /** Where the objects at an address are first reported. */
  ghost function Reports(addrs: Addresses, k: string): (from: seq<nat>)
    ensures Rising(from, |addrs|)
    ensures forall i | 0 <= i < |addrs| :: i in from <==> addrs[i].address == k && FirstReport(addrs, i)
  {
    if addrs == [] then []
    else
      var n := |addrs| - 1;
      var before := Reports(addrs[..n], k);
      assert forall i | 0 <= i < n :: addrs[..n][i] == addrs[i];
      assert forall i | 0 <= i < n :: FirstReport(addrs, i) <==> FirstReport(addrs[..n], i);
      if addrs[n].address == k && FirstReport(addrs, n) then before + [n] else before
  }

  /** The objects at an address are its first reports, in the order reported. */
  lemma {:induction false} ObjectsByReport(addrs: Addresses, k: string)
    ensures var from, r := Reports(addrs, k), ObjectsAt(addrs, k);
            |from| == |r| && forall n | 0 <= n < |r| :: r[n] == addrs[from[n]]
  {
    if addrs != [] {
      var n := |addrs| - 1;
      ObjectsByReport(addrs[..n], k);
      assert addrs == addrs[..n] + [addrs[n]];
      FirstReportIs(addrs[..n], addrs[n]);
    }
  }

  /** An object reported twice at an address is reported alike. */
  ghost predicate Alike(addrs: Addresses) {
    forall a, b | a in addrs && b in addrs && Identity(a) == Identity(b) :: a == b
  }

  lemma {:induction false} ObjectsOnce(addrs: Addresses, k: string, x: ExternalAddress)
    requires Alike(addrs)
    ensures multiset(ObjectsAt(addrs, k))[x] == if x in addrs && x.address == k then 1 else 0
  {
    if addrs != [] {
      var n := |addrs| - 1;
      assert addrs == addrs[..n] + [addrs[n]];
      ObjectsOnce(addrs[..n], k, x);
      if Identity(addrs[n]) in Identities(addrs[..n]) {
        var a :| a in addrs[..n] && Identity(a) == Identity(addrs[n]);
        assert a in addrs && addrs[n] in addrs;
      }
    }
  }

  lemma ObjectsOrderFree(a: Addresses, b: Addresses, k: string)
    requires multiset(a) == multiset(b) && Alike(a)
    ensures multiset(ObjectsAt(a, k)) == multiset(ObjectsAt(b, k))
  {
    forall x ensures x in a <==> x in b {
      assert x in multiset(a) <==> x in multiset(b);
    }
    forall x ensures multiset(ObjectsAt(a, k))[x] == multiset(ObjectsAt(b, k))[x] {
      ObjectsOnce(a, k, x);
      ObjectsOnce(b, k, x);
    }
  }

  // ---- picking one object ----

  function PortNumber(p: string): string {
    if p == [] || p[0] == '/' then [] else [p[0]] + PortNumber(p[1..])
  }

  predicate Serves(o: ExternalAddress, port: string) {
    exists p | p in o.ports :: PortNumber(p) == port
  }

  lemma {:induction false} PortBeforeSlash(p: string)
    ensures '/' !in PortNumber(p) && (p == PortNumber(p) || PortNumber(p) + "/" <= p)
  {
    if p != [] && p[0] != '/' {
      PortBeforeSlash(p[1..]);
      assert p == [p[0]] + p[1..];
    }
  }

  lemma {:induction false} PortOf(port: string, rest: string)
    requires '/' !in port && (rest == [] || rest[0] == '/')
    ensures PortNumber(port + rest) == port
  {
    if port == [] {
      assert port + rest == rest;
    } else {
      assert (port + rest)[1..] == port[1..] + rest && port == [port[0]] + port[1..];
      PortOf(port[1..], rest);
    }
  }

  /** "8080" is served by "8080", "8080/TCP" and "8080/HTTPS", and by nothing else. */
  lemma ServesMeans(o: ExternalAddress, port: string)
    ensures Serves(o, port) <==> '/' !in port && exists p | p in o.ports :: p == port || port + "/" <= p
  {
    forall p | p in o.ports ensures PortNumber(p) == port <==> '/' !in port && (p == port || port + "/" <= p) {
      PortBeforeSlash(p);
      if '/' !in port && p == port { PortOf(port, ""); assert port + "" == port; }
      if '/' !in port && port + "/" <= p {
        PortOf(port, p[|port|..]);
        assert p == port + p[|port|..];
      }
    }
  }

  /** The objects serving the dialled port when any does, else all of them. */
  function Candidates(objs: Addresses, port: string): Addresses {
    var serving := Filter(objs, (o: ExternalAddress) => Serves(o, port));
    if port != "" && serving != [] then serving else objs
  }

  function OfKind(objs: Addresses, kind: Kind): Addresses {
    Filter(objs, (o: ExternalAddress) => o.kind == kind)
  }

  function Rank(kind: Kind, ingresses: nat): int {
    match kind
    case Gateway => 0
    case Ingress => if ingresses == 1 then 1 else 3
    case Service => 2
    case OtherKind(_) => 4
  }

  function ObjectKey(o: ExternalAddress, ingresses: nat): SortKey {
    SortKey(Rank(o.kind, ingresses), 0.0, o.namespace, o.name, "")
  }

  /** best is a first choice among the candidates, and undecided counts the
      others: a Gateway or a lone Ingress is certain over one Service each. */
  ghost predicate Picks(objs: Addresses, port: string, best: ExternalAddress, undecided: int) {
    var cands := Candidates(objs, port);
    var gateways, ingresses, services := |OfKind(cands, Gateway)|, |OfKind(cands, Ingress)|, |OfKind(cands, Service)|;
    && best in cands
    && (forall o | o in cands :: !Below(ObjectKey(o, ingresses), ObjectKey(best, ingresses)))
    && undecided ==
       if best.kind.Gateway? then Max(gateways, services) - 1
       else if best.kind.Ingress? && ingresses == 1 then Max(1, services) - 1
       else |cands| - 1
  }

  method Narrow(objs: Addresses, port: string) returns (cands: Addresses)
    ensures cands == Candidates(objs, port)
  {
    cands := objs;
    if port != "" {
      var serving: Addresses := [];
      for i := 0 to |objs|
        invariant serving == Filter(objs[..i], (o: ExternalAddress) => Serves(o, port))
      {
        assert objs[..i + 1][..i] == objs[..i];
        if Serves(objs[i], port) { serving := serving + [objs[i]]; }
      }
      assert objs[..|objs|] == objs;
      if |serving| > 0 { cands := serving; }
    }
  }

  method CountKinds(cands: Addresses) returns (gateways: nat, ingresses: nat, services: nat)
    ensures gateways == |OfKind(cands, Gateway)|
    ensures ingresses == |OfKind(cands, Ingress)|
    ensures services == |OfKind(cands, Service)|
  {
    gateways, ingresses, services := 0, 0, 0;
    for i := 0 to |cands|
      invariant gateways == |OfKind(cands[..i], Gateway)|
      invariant ingresses == |OfKind(cands[..i], Ingress)|
      invariant services == |OfKind(cands[..i], Service)|
    {
      assert cands[..i + 1][..i] == cands[..i];
      match cands[i].kind
      case Gateway => gateways := gateways + 1;
      case Ingress => ingresses := ingresses + 1;
      case Service => services := services + 1;
      case OtherKind(_) =>
    }
    assert cands[..|cands|] == cands;
  }

  method PickFleetObject(objs: Addresses, port: string) returns (best: ExternalAddress, undecided: int)
    requires objs != []
    ensures Picks(objs, port, best, undecided)
  {
    var cands := Narrow(objs, port);
    var gateways, ingresses, services := CountKinds(cands);
    var sorted := SortBy(cands, o => ObjectKey(o, ingresses));
    SameLength(sorted, cands);
    best := sorted[0];
    FirstOfSorted(sorted, cands, o => ObjectKey(o, ingresses));
    if best.kind.Gateway? {
      undecided := gateways - 1 + Max(0, services - gateways);
    } else if best.kind.Ingress? && ingresses == 1 {
      undecided := Max(0, services - 1);
    } else {
      undecided := |sorted| - 1;
    }
  }

  lemma FirstOfSorted<T>(sorted: seq<T>, xs: seq<T>, key: T -> SortKey)
    requires sorted != [] && InOrder(sorted, key) && multiset(sorted) == multiset(xs)
    ensures sorted[0] in xs
    ensures forall x | x in xs :: !Below(key(x), key(sorted[0]))
  {
    assert sorted[0] in multiset(xs);
    forall x | x in xs ensures !Below(key(x), key(sorted[0])) {
      assert x in multiset(sorted);
      var i :| 0 <= i < |sorted| && sorted[i] == x;
      BelowTotal(key(x), key(x));
    }
  }

  /** No two objects tie in the ranking: Gateways, Ingresses and Services never
      do, two objects of other kinds might. */
  ghost predicate Tellable(objs: Addresses) {
    forall a, b | a in objs && b in objs && a.namespace == b.namespace && a.name == b.name
                  && (a.kind == b.kind || (a.kind.OtherKind? && b.kind.OtherKind?)) :: a == b
  }

  lemma CandidatesOrderFree(a: Addresses, b: Addresses, port: string)
    requires multiset(a) == multiset(b)
    ensures multiset(Candidates(a, port)) == multiset(Candidates(b, port))
    ensures |Candidates(a, port)| == |Candidates(b, port)|
  {
    FilterOrderFree(a, b, (o: ExternalAddress) => Serves(o, port));
    SameLength(a, b);
  }

  lemma CandidatesAreObjects(objs: Addresses, port: string, o: ExternalAddress)
    requires o in Candidates(objs, port)
    ensures o in objs
  {
  }

  /** The pick and its count do not depend on the order the objects came in. */
  lemma PickOrderFree(a: Addresses, b: Addresses, port: string, x: ExternalAddress, m: int, y: ExternalAddress, n: int)
    requires multiset(a) == multiset(b) && Tellable(a)
    requires Picks(a, port, x, m) && Picks(b, port, y, n)
    ensures x == y && m == n
  {
    CandidatesOrderFree(a, b, port);
    var ca, cb := Candidates(a, port), Candidates(b, port);
    forall o ensures o in ca <==> o in cb { assert o in multiset(ca) <==> o in multiset(cb); }
    forall kind ensures |OfKind(ca, kind)| == |OfKind(cb, kind)| {
      FilterOrderFree(ca, cb, (o: ExternalAddress) => o.kind == kind);
    }
    var ingresses := |OfKind(ca, Ingress)|;
    BelowTotal(ObjectKey(x, ingresses), ObjectKey(y, ingresses));
    CandidatesAreObjects(a, port, x);
    CandidatesAreObjects(a, port, y);
  }

  /** Never negative, and never more than the other objects on the address. */
  lemma UndecidedIsBounded(objs: Addresses, port: string, best: ExternalAddress, undecided: int)
    requires Picks(objs, port, best, undecided)
    ensures 0 <= undecided <= |objs| - 1
  {
    var cands := Candidates(objs, port);
    FilterShorter(objs, (o: ExternalAddress) => Serves(o, port));
    ApartFilters(cands, (o: ExternalAddress) => o.kind == Gateway, (o: ExternalAddress) => o.kind == Service);
    ApartFilters(cands, (o: ExternalAddress) => o.kind == Ingress, (o: ExternalAddress) => o.kind == Service);
    if best.kind.Gateway? { assert best in OfKind(cands, Gateway); }
  }

  lemma FilterShorter<T>(xs: seq<T>, keep: T -> bool)
    ensures |Filter(xs, keep)| <= |xs|
  {
  }

  predicate OfThese(o: ExternalAddress, objs: Addresses, port: string) {
    && o in objs
    && (port == "" || Serves(o, port) || forall x | x in objs :: !Serves(x, port))
  }

  /** By name within the namespace, and namespaces by name. */
  predicate NamedNoLater(a: ExternalAddress, b: ExternalAddress) {
    if a.namespace == b.namespace then !LexLess(b.name, a.name) else LexLess(a.namespace, b.namespace)
  }

  /** The pick is one of the objects serving the port, or of all where none does:
      a Gateway if there is one, else the Ingress if there is just one, else a
      Service, else one of the Ingresses; the first by name of its kind. */
  lemma PickSaysWhat(objs: Addresses, port: string, best: ExternalAddress, undecided: int)
    requires Picks(objs, port, best, undecided)
    ensures OfThese(best, objs, port)
    ensures forall o | OfThese(o, objs, port) && o.kind.Gateway? :: best.kind.Gateway?
    ensures var ingresses := |OfKind(Candidates(objs, port), Ingress)|;
            && (best.kind.Ingress? && ingresses != 1 ==> forall o | OfThese(o, objs, port) :: !o.kind.Service?)
            && (best.kind.Service? && ingresses == 1 ==> forall o | OfThese(o, objs, port) :: !o.kind.Ingress?)
    ensures best.kind.OtherKind? ==> forall o | OfThese(o, objs, port) :: o.kind.OtherKind?
    ensures forall o | OfThese(o, objs, port) && o.kind == best.kind :: NamedNoLater(best, o)
    ensures var cands := Candidates(objs, port);
            var gateways, services := |OfKind(cands, Gateway)|, |OfKind(cands, Service)|;
            && (best.kind.Gateway? && services <= gateways ==> undecided == gateways - 1)
            && (best.kind.Gateway? && services > gateways ==> undecided == (gateways - 1) + (services - gateways))
            && (best.kind.Ingress? && |OfKind(cands, Ingress)| == 1 ==>
                  undecided == if services == 0 then 0 else services - 1)
            && (best.kind.Ingress? && |OfKind(cands, Ingress)| != 1 ==> undecided == |cands| - 1)
            && (best.kind.Service? || best.kind.OtherKind? ==> undecided == |cands| - 1)
  {
    var cands := Candidates(objs, port);
    forall o ensures o in cands <==> OfThese(o, objs, port) {
      CandidatesAre(objs, port, o);
    }
    KindsByRank(cands, best);
    forall o | o in cands && o.kind == best.kind ensures NamedNoLater(best, o) {
      LexTotal(best.namespace, o.namespace);
      LexTotal(best.name, o.name);
    }
  }

  /** The candidates are the objects serving the port, each as often as it is on the
      address, or all of them where none does. */
  lemma CandidatesAre(objs: Addresses, port: string, o: ExternalAddress)
    ensures multiset(Candidates(objs, port))[o] == if OfThese(o, objs, port) then multiset(objs)[o] else 0
    ensures o in Candidates(objs, port) <==> OfThese(o, objs, port)
  {
    var serving := Filter(objs, (x: ExternalAddress) => Serves(x, port));
    FilterCounts(objs, (x: ExternalAddress) => Serves(x, port), o);
    if serving != [] { assert serving[0] in serving; }
    assert o in objs <==> o in multiset(objs);
    assert o in Candidates(objs, port) <==> o in multiset(Candidates(objs, port));
  }

  lemma KindsByRank(cands: Addresses, best: ExternalAddress)
    requires best in cands
    requires var ingresses := |OfKind(cands, Ingress)|;
             forall o | o in cands :: !Below(ObjectKey(o, ingresses), ObjectKey(best, ingresses))
    ensures var ingresses := |OfKind(cands, Ingress)|;
            && (forall o | o in cands && o.kind.Gateway? :: best.kind.Gateway?)
            && (best.kind.Ingress? && ingresses != 1 ==> forall o | o in cands :: !o.kind.Service?)
            && (best.kind.Service? && ingresses == 1 ==> forall o | o in cands :: !o.kind.Ingress?)
            && (best.kind.OtherKind? ==> forall o | o in cands :: o.kind.OtherKind?)
  {
  }

  /** A Gateway on the address is named whenever the port does not rule it out. */
  lemma GatewayFirst(objs: Addresses, port: string, best: ExternalAddress, undecided: int, g: ExternalAddress)
    requires Picks(objs, port, best, undecided) && g in Candidates(objs, port) && g.kind.Gateway?
    ensures best.kind.Gateway?
  {
  }

  // ---- the book and the match ----

  datatype Hit = Hit(cluster: nat, addr: ExternalAddress)

  datatype Match = Match(display: string, context: string, target: ExternalAddress, sameCluster: bool,
                         sharedBy: int, otherClusters: int)

  datatype Found = Found(named: Option<Match>, undecided: int)

  function Tagged(i: nat, objs: Addresses): seq<Hit> {
    seq(|objs|, n requires 0 <= n < |objs| => Hit(i, objs[n]))
  }

  /** Everything the fleet exposes at an address, cluster by cluster. */
  function HitsAt(sets: seq<Addresses>, k: string): seq<Hit> {
    if sets == [] || k == "" then []
    else HitsAt(sets[..|sets| - 1], k) + Tagged(|sets| - 1, ObjectsAt(sets[|sets| - 1], k))
  }

  function Filed(book: map<string, seq<Hit>>, k: string): seq<Hit> {
    if k in book then book[k] else []
  }

  /** book is was with one cluster's addresses filed, each object once; "" is nothing to match. */
  ghost predicate FiledInto(book: map<string, seq<Hit>>, was: map<string, seq<Hit>>, i: nat, addrs: Addresses) {
    forall k :: Filed(book, k) == Filed(was, k) + if k == "" then [] else Tagged(i, ObjectsAt(addrs, k))
  }

  function FileOne(book: map<string, seq<Hit>>, i: nat, a: ExternalAddress): map<string, seq<Hit>> {
    book[a.address := Filed(book, a.address) + [Hit(i, a)]]
  }

  predicate New(a: ExternalAddress, addrs: Addresses) {
    a.address != "" && Identity(a) !in Identities(addrs)
  }

  lemma FilesAt(book: map<string, seq<Hit>>, before: seq<Hit>, i: nat, objs: Addresses, a: ExternalAddress)
    requires Filed(book, a.address) == before + Tagged(i, objs)
    ensures Filed(FileOne(book, i, a), a.address) == before + Tagged(i, objs + [a])
  {
  }

  lemma FilesOne(book: map<string, seq<Hit>>, was: map<string, seq<Hit>>, i: nat, addrs: Addresses, a: ExternalAddress)
    requires FiledInto(book, was, i, addrs)
    ensures FiledInto(if New(a, addrs) then FileOne(book, i, a) else book, was, i, addrs + [a])
  {
    var next := if New(a, addrs) then FileOne(book, i, a) else book;
    forall k ensures Filed(next, k) == Filed(was, k) + if k == "" then [] else Tagged(i, ObjectsAt(addrs + [a], k)) {
      ObjectsGrow(addrs, a, k);
      if New(a, addrs) && k == a.address {
        FilesAt(book, Filed(was, k), i, ObjectsAt(addrs, k), a);
      }
    }
  }

  method FileCluster(was: map<string, seq<Hit>>, i: nat, addrs: Addresses) returns (book: map<string, seq<Hit>>)
    ensures FiledInto(book, was, i, addrs)
  {
    book := was;
    var seen := {};
    for j := 0 to |addrs|
      invariant FiledInto(book, was, i, addrs[..j])
      invariant seen == set a | a in addrs[..j] && a.address != "" :: Identity(a)
    {
      var a := addrs[j];
      FilesOne(book, was, i, addrs[..j], a);
      assert addrs[..j + 1] == addrs[..j] + [a];
      if a.address != "" {
        assert Identity(a) in seen <==> Identity(a) in Identities(addrs[..j]);
        if Identity(a) !in seen {
          seen := seen + {Identity(a)};
          book := FileOne(book, i, a);
        }
      }
    }
    assert addrs[..|addrs|] == addrs;
  }

  lemma ObjectsGrow(addrs: Addresses, a: ExternalAddress, k: string)
    ensures ObjectsAt(addrs + [a], k) ==
            ObjectsAt(addrs, k) + if a.address == k && Identity(a) !in Identities(addrs) then [a] else []
  {
  }

  method NewFleetAddressBook(sets: seq<Addresses>) returns (book: map<string, seq<Hit>>)
    ensures forall k :: Filed(book, k) == HitsAt(sets, k)
  {
    book := map[];
    for i := 0 to |sets|
      invariant forall k :: Filed(book, k) == HitsAt(sets[..i], k)
    {
      assert sets[..i + 1][..i] == sets[..i];
      book := FileCluster(book, i, sets[i]);
    }
    assert sets[..|sets|] == sets;
  }

  /** The objects of one cluster among the hits. */
  function OfCluster(hits: seq<Hit>, c: nat): Addresses {
    if hits == [] then []
    else
      var n := |hits| - 1;
      OfCluster(hits[..n], c) + if hits[n].cluster == c then [hits[n].addr] else []
  }

  lemma {:induction false} OfClusterConcat(xs: seq<Hit>, ys: seq<Hit>, c: nat)
    ensures OfCluster(xs + ys, c) == OfCluster(xs, c) + OfCluster(ys, c)
  {
    if ys == [] {
      assert xs + ys == xs;
    } else {
      var n := |ys| - 1;
      OfClusterConcat(xs, ys[..n], c);
      assert (xs + ys)[..|xs + ys| - 1] == xs + ys[..n];
    }
  }

  lemma {:induction false} OfClusterTagged(i: nat, objs: Addresses, c: nat)
    ensures OfCluster(Tagged(i, objs), c) == if c == i then objs else []
  {
    if objs != [] {
      var n := |objs| - 1;
      OfClusterTagged(i, objs[..n], c);
      assert Tagged(i, objs)[..n] == Tagged(i, objs[..n]);
    }
  }

  lemma {:induction false} HitsByCluster(sets: seq<Addresses>, k: string, c: nat)
    requires k != ""
    ensures OfCluster(HitsAt(sets, k), c) == if c < |sets| then ObjectsAt(sets[c], k) else []
  {
    if sets != [] {
      var n := |sets| - 1;
      var init, own := sets[..n], ObjectsAt(sets[n], k);
      HitsByCluster(init, k, c);
      OfClusterConcat(HitsAt(init, k), Tagged(n, own), c);
      OfClusterTagged(n, own, c);
      assert HitsAt(sets, k) == HitsAt(init, k) + Tagged(n, own);
      if c < n { assert init[c] == sets[c]; }
    }
  }

  lemma {:induction false} NoHits(hits: seq<Hit>)
    ensures hits == [] <==> forall c: nat :: OfCluster(hits, c) == []
  {
    if hits != [] {
      assert OfCluster(hits, hits[|hits| - 1].cluster) != [];
    }
  }

  /** The cluster being investigated first, then by name. */
  function ClusterKey(c: Cluster): SortKey {
    SortKey(if c.current then 0 else 1, 0.0, c.display, c.context, "")
  }

  function Holds(sets: seq<Addresses>, k: string, c: nat): bool {
    k != "" && c < |sets| && ObjectsAt(sets[c], k) != []
  }

  function Holders(sets: seq<Addresses>, k: string): set<nat> {
    set c | 0 <= c < |sets| && Holds(sets, k, c)
  }

  /** c is the first of the clusters holding the address. */
  ghost predicate Chosen(clusters: seq<Cluster>, sets: seq<Addresses>, k: string, c: nat)
    requires |clusters| == |sets|
  {
    && c in Holders(sets, k)
    && forall d | d in Holders(sets, k) :: !Below(ClusterKey(clusters[d]), ClusterKey(clusters[c]))
  }

  /** r names one of a cluster's objects, out of that many holders of the address. */
  ghost predicate Names(c: Cluster, objs: Addresses, holders: nat, port: string, r: Found) {
    && r.named.Some?
    && Picks(objs, port, r.named.value.target, r.undecided)
    && r.named.value == Match(c.display, c.context, r.named.value.target, c.current, |objs| - 1, holders - 1)
  }

  ghost predicate NamesOf(clusters: seq<Cluster>, sets: seq<Addresses>, k: string, port: string, r: Found, c: nat)
    requires |clusters| == |sets|
  {
    Chosen(clusters, sets, k, c) && Names(clusters[c], ObjectsAt(sets[c], k), |Holders(sets, k)|, port, r)
  }

  method GroupByCluster(hits: seq<Hit>) returns (byCluster: map<nat, Addresses>)
    ensures forall c: nat :: c in byCluster <==> OfCluster(hits, c) != []
    ensures forall c | c in byCluster :: byCluster[c] == OfCluster(hits, c)
  {
    byCluster := map[];
    for n := 0 to |hits|
      invariant forall c: nat :: c in byCluster <==> OfCluster(hits[..n], c) != []
      invariant forall c | c in byCluster :: byCluster[c] == OfCluster(hits[..n], c)
    {
      var h := hits[n];
      assert hits[..n + 1][..n] == hits[..n];
      byCluster := byCluster[h.cluster := (if h.cluster in byCluster then byCluster[h.cluster] else []) + [h.addr]];
    }
    assert hits[..|hits|] == hits;
  }

  method KeysOf(m: map<nat, Addresses>) returns (idx: seq<nat>)
    ensures multiset(idx) == multiset(m.Keys) && |idx| == |m.Keys|
  {
    idx := [];
    var rest := m.Keys;
    while rest != {}
      invariant multiset(idx) + multiset(rest) == multiset(m.Keys)
      invariant |idx| + |rest| == |m.Keys|
      decreases rest
    {
      var c :| c in rest;
      rest := rest - {c};
      idx := idx + [c];
    }
  }

  /** What is named depends only on what the clusters expose: the address is
      unknown exactly when none does, else the first holder's pick is named. */
  method Find(clusters: seq<Cluster>, book: map<string, seq<Hit>>, k: string, port: string,
              ghost sets: seq<Addresses>) returns (r: Found, c: nat)
    requires |clusters| == |sets| && forall q :: Filed(book, q) == HitsAt(sets, q)
    ensures r.named.None? <==> k == "" || forall i, a | 0 <= i < |sets| && a in sets[i] :: a.address != k
    ensures r.named.None? ==> r.undecided == 0
    ensures r.named.Some? ==> NamesOf(clusters, sets, k, port, r, c)
    ensures r.named.Some? ==>
              var m := r.named.value;
              && c < |clusters| && m.display == clusters[c].display && m.context == clusters[c].context
              && m.sameCluster == clusters[c].current && m.target in sets[c] && m.target.address == k
              && m.sharedBy == |ObjectsAt(sets[c], k)| - 1
              && m.otherClusters == |ExposedBy(sets, k)| - 1
              && forall i, a | 0 <= i < |sets| && a in sets[i] && a.address == k ::
                   ComesNoLater(clusters[c], clusters[i])
  {
    c := 0;
    var hits := Filed(book, k);
    if k == "" || hits == [] {
      if k != "" {
        HoldersAreKeys(sets, k, hits);
        HoldersExpose(sets, k);
        NoneExposes(sets, k);
      }
      return Found(None, 0), c;
    }
    var byCluster := GroupByCluster(hits);
    HoldersAreKeys(sets, k, hits);
    var idx := KeysOf(byCluster);
    c := FirstCluster(clusters, idx, Holders(sets, k));
    var objs := byCluster[c];
    HitsByCluster(sets, k, c);
    r := Describe(clusters[c], objs, |idx|, port);
    MatchSays(clusters, sets, k, port, r, c);
  }

  /** The cluster being investigated before any other, else by name, else by context. */
  predicate ComesNoLater(c: Cluster, d: Cluster) {
    if c.current != d.current then c.current
    else if c.display != d.display then LexLess(c.display, d.display)
    else c.context == d.context || LexLess(c.context, d.context)
  }

  lemma KeyMeansOrder(c: Cluster, d: Cluster)
    requires !Below(ClusterKey(d), ClusterKey(c))
    ensures ComesNoLater(c, d)
  {
    LexTotal(c.display, d.display);
    LexTotal(c.context, d.context);
  }

  lemma {:induction false} ObjectsIfAny(addrs: Addresses, k: string)
    ensures ObjectsAt(addrs, k) != [] <==> exists a :: a in addrs && a.address == k
  {
    if addrs != [] {
      var n := |addrs| - 1;
      ObjectsIfAny(addrs[..n], k);
      assert addrs == addrs[..n] + [addrs[n]];
      if Identity(addrs[n]) in Identities(addrs[..n]) {
        var b :| b in addrs[..n] && Identity(b) == Identity(addrs[n]);
      }
    }
  }

  /** The clusters with an object at the address. */
  ghost function ExposedBy(sets: seq<Addresses>, k: string): set<nat> {
    set i: nat | i < |sets| && exists a :: a in sets[i] && a.address == k
  }

  /** Holding an address is exposing an object there. */
  lemma HoldersExpose(sets: seq<Addresses>, k: string)
    requires k != ""
    ensures Holders(sets, k) == ExposedBy(sets, k)
  {
    forall i | 0 <= i < |sets| ensures Holds(sets, k, i) <==> exists a :: a in sets[i] && a.address == k {
      ObjectsIfAny(sets[i], k);
    }
  }

  lemma NoneExposes(sets: seq<Addresses>, k: string)
    requires k != "" && Holders(sets, k) == {}
    ensures forall i, a | 0 <= i < |sets| && a in sets[i] :: a.address != k
  {
    HoldersExpose(sets, k);
    forall i, a | 0 <= i < |sets| && a in sets[i] ensures a.address != k {
      assert i !in Holders(sets, k);
    }
  }

  lemma MatchSays(clusters: seq<Cluster>, sets: seq<Addresses>, k: string, port: string, r: Found, c: nat)
    requires |clusters| == |sets| && NamesOf(clusters, sets, k, port, r, c)
    ensures var m := r.named.value;
            && c < |clusters| && m.display == clusters[c].display && m.context == clusters[c].context
            && m.sameCluster == clusters[c].current && m.target in sets[c] && m.target.address == k
            && m.sharedBy == |ObjectsAt(sets[c], k)| - 1
            && m.otherClusters == |ExposedBy(sets, k)| - 1
            && forall i, a | 0 <= i < |sets| && a in sets[i] && a.address == k ::
                 ComesNoLater(clusters[c], clusters[i])
  {
    HoldersExpose(sets, k);
    CandidatesAreObjects(ObjectsAt(sets[c], k), port, r.named.value.target);
    forall i, a | 0 <= i < |sets| && a in sets[i] && a.address == k ensures ComesNoLater(clusters[c], clusters[i]) {
      assert i in Holders(sets, k);
      KeyMeansOrder(clusters[c], clusters[i]);
    }
  }

  method Describe(c: Cluster, objs: Addresses, holders: nat, port: string) returns (r: Found)
    requires objs != []
    ensures Names(c, objs, holders, port, r)
  {
    var best, undecided := PickFleetObject(objs, port);
    r := Found(Some(Match(c.display, c.context, best, c.current, |objs| - 1, holders - 1)), undecided);
  }

  lemma HoldersAreKeys(sets: seq<Addresses>, k: string, hits: seq<Hit>)
    requires k != "" && hits == HitsAt(sets, k)
    ensures forall c: nat :: OfCluster(hits, c) != [] <==> c in Holders(sets, k)
    ensures hits == [] <==> Holders(sets, k) == {}
  {
    forall c: nat ensures OfCluster(hits, c) != [] <==> c in Holders(sets, k) {
      HitsByCluster(sets, k, c);
    }
    NoHits(hits);
  }

  method FirstCluster(clusters: seq<Cluster>, idx: seq<nat>, ghost all: set<nat>) returns (c: nat)
    requires idx != [] && multiset(idx) == multiset(all) && forall i | i in all :: i < |clusters|
    ensures c in all && forall d | d in all :: !Below(ClusterKey(clusters[d]), ClusterKey(clusters[c]))
  {
    var key := (i: nat) => if i < |clusters| then ClusterKey(clusters[i]) else SortKey(2, 0.0, "", "", "");
    var sorted := SortBy(idx, key);
    SameLength(sorted, idx);
    FirstOfSorted(sorted, idx, key);
    c := sorted[0];
    assert c in multiset(idx);
    forall d | d in all ensures !Below(key(d), key(c)) {
      assert d in multiset(idx);
    }
  }

  // ---- the answer does not depend on order ----

  ghost predicate DistinctContexts(clusters: seq<Cluster>) {
    forall i, j | 0 <= i < j < |clusters| :: clusters[i].context != clusters[j].context
  }

  /** The same cluster, with its addresses in any order. */
  ghost predicate Twin(cs: seq<Cluster>, ss: seq<Addresses>, i: nat, ds: seq<Cluster>, ts: seq<Addresses>, j: nat) {
    i < |cs| == |ss| && j < |ds| == |ts| && cs[i] == ds[j] && multiset(ss[i]) == multiset(ts[j])
  }

  ghost predicate HasTwin(cs: seq<Cluster>, ss: seq<Addresses>, i: nat, ds: seq<Cluster>, ts: seq<Addresses>) {
    exists j: nat :: Twin(cs, ss, i, ds, ts, j)
  }

  ghost predicate SameFleet(cs: seq<Cluster>, ss: seq<Addresses>, ds: seq<Cluster>, ts: seq<Addresses>) {
    && |cs| == |ss| && |ds| == |ts|
    && (forall i: nat | i < |cs| :: HasTwin(cs, ss, i, ds, ts))
    && (forall j: nat | j < |ds| :: HasTwin(ds, ts, j, cs, ss))
  }

  ghost function ContextsOf(cs: seq<Cluster>, ids: set<nat>): set<string>
    requires forall i | i in ids :: i < |cs|
  {
    set i | i in ids :: cs[i].context
  }

  lemma {:induction false} AsManyContexts(cs: seq<Cluster>, ids: set<nat>)
    requires DistinctContexts(cs) && forall i | i in ids :: i < |cs|
    ensures |ContextsOf(cs, ids)| == |ids|
    decreases |ids|
  {
    if ids != {} {
      var i :| i in ids;
      AsManyContexts(cs, ids - {i});
      assert ContextsOf(cs, ids) == ContextsOf(cs, ids - {i}) + {cs[i].context};
    }
  }

  lemma TwinsHoldAlike(cs: seq<Cluster>, ss: seq<Addresses>, i: nat, ds: seq<Cluster>, ts: seq<Addresses>, j: nat,
                       k: string)
    requires Twin(cs, ss, i, ds, ts, j) && Alike(ss[i])
    ensures Holds(ss, k, i) <==> Holds(ts, k, j)
    ensures multiset(ObjectsAt(ss[i], k)) == multiset(ObjectsAt(ts[j], k))
    ensures |ObjectsAt(ss[i], k)| == |ObjectsAt(ts[j], k)|
  {
    ObjectsOrderFree(ss[i], ts[j], k);
    SameLength(ObjectsAt(ss[i], k), ObjectsAt(ts[j], k));
  }

  lemma SameHolders(cs: seq<Cluster>, ss: seq<Addresses>, ds: seq<Cluster>, ts: seq<Addresses>, k: string)
    requires SameFleet(cs, ss, ds, ts) && DistinctContexts(cs) && DistinctContexts(ds)
    requires forall i | 0 <= i < |ss| :: Alike(ss[i])
    ensures |Holders(ss, k)| == |Holders(ts, k)|
  {
    AsManyContexts(cs, Holders(ss, k));
    AsManyContexts(ds, Holders(ts, k));
    var a, b := ContextsOf(cs, Holders(ss, k)), ContextsOf(ds, Holders(ts, k));
    forall x | x in a ensures x in b {
      var i :| i in Holders(ss, k) && cs[i].context == x;
      assert HasTwin(cs, ss, i, ds, ts);
      var j: nat :| Twin(cs, ss, i, ds, ts, j);
      TwinsHoldAlike(cs, ss, i, ds, ts, j, k);
    }
    forall x | x in b ensures x in a {
      var j :| j in Holders(ts, k) && ds[j].context == x;
      assert HasTwin(ds, ts, j, cs, ss);
      var i: nat :| Twin(ds, ts, j, cs, ss, i);
      TwinsHoldAlike(cs, ss, i, ds, ts, j, k);
    }
    assert a == b;
  }

  /** Both fleets choose the same cluster. */
  lemma SameChoice(cs: seq<Cluster>, ss: seq<Addresses>, ds: seq<Cluster>, ts: seq<Addresses>, k: string, c: nat,
                   d: nat)
    requires SameFleet(cs, ss, ds, ts) && DistinctContexts(ds)
    requires forall i | 0 <= i < |ss| :: Alike(ss[i])
    requires Chosen(cs, ss, k, c) && Chosen(ds, ts, k, d)
    ensures Twin(cs, ss, c, ds, ts, d)
  {
    assert HasTwin(cs, ss, c, ds, ts) && HasTwin(ds, ts, d, cs, ss);
    var j: nat :| Twin(cs, ss, c, ds, ts, j);
    var i: nat :| Twin(ds, ts, d, cs, ss, i);
    TwinsHoldAlike(cs, ss, c, ds, ts, j, k);
    TwinsHoldAlike(cs, ss, i, ds, ts, d, k);
    BelowTotal(ClusterKey(cs[c]), ClusterKey(ds[d]));
    assert j == d;
  }

  lemma TellableNaming(cs: seq<Cluster>, ss: seq<Addresses>, ds: seq<Cluster>, ts: seq<Addresses>,
                          k: string, port: string, r: Found, c: nat, s: Found, d: nat)
    requires SameFleet(cs, ss, ds, ts) && DistinctContexts(cs) && DistinctContexts(ds)
    requires forall i | 0 <= i < |ss| :: Alike(ss[i])
    requires c < |ss| && Tellable(ObjectsAt(ss[c], k))
    requires NamesOf(cs, ss, k, port, r, c) && NamesOf(ds, ts, k, port, s, d)
    ensures r == s
  {
    SameChoice(cs, ss, ds, ts, k, c, d);
    TwinsHoldAlike(cs, ss, c, ds, ts, d, k);
    SameHolders(cs, ss, ds, ts, k);
    SameNames(cs[c], ObjectsAt(ss[c], k), ObjectsAt(ts[d], k), |Holders(ss, k)|, port, r, s);
  }

  /** The three kinds the address cache reports. */
  predicate KnownKinds(addrs: Addresses) {
    forall a | a in addrs :: !a.kind.OtherKind?
  }

  lemma KnownKindsAreTellable(addrs: Addresses, k: string)
    requires Alike(addrs) && KnownKinds(addrs)
    ensures Tellable(ObjectsAt(addrs, k))
  {
    var objs := ObjectsAt(addrs, k);
    forall a, b | a in objs && b in objs && a.namespace == b.namespace && a.name == b.name && a.kind == b.kind
      ensures a == b
    {
      assert Identity(a) == Identity(b);
    }
  }

  /** Permuting the clusters, or any cluster's addresses, never changes the answer. */
  lemma NamingIsOrderFree(cs: seq<Cluster>, ss: seq<Addresses>, ds: seq<Cluster>, ts: seq<Addresses>,
                          k: string, port: string, r: Found, c: nat, s: Found, d: nat)
    requires SameFleet(cs, ss, ds, ts) && DistinctContexts(cs) && DistinctContexts(ds)
    requires forall i | 0 <= i < |ss| :: Alike(ss[i]) && KnownKinds(ss[i])
    requires NamesOf(cs, ss, k, port, r, c) && NamesOf(ds, ts, k, port, s, d)
    ensures r == s
  {
    KnownKindsAreTellable(ss[c], k);
    TellableNaming(cs, ss, ds, ts, k, port, r, c, s, d);
  }

  lemma SameNames(c: Cluster, a: Addresses, b: Addresses, holders: nat, port: string, r: Found, s: Found)
    requires multiset(a) == multiset(b) && |a| == |b| && Tellable(a)
    requires Names(c, a, holders, port, r) && Names(c, b, holders, port, s)
    ensures r == s
  {
    PickOrderFree(a, b, port, r.named.value.target, r.undecided, s.named.value.target, s.undecided);
  }

  /** The cluster being investigated wins whenever it holds the address. */
  lemma InvestigatedWins(clusters: seq<Cluster>, sets: seq<Addresses>, k: string, port: string, r: Found, c: nat,
                         i: nat)
    requires |clusters| == |sets| && NamesOf(clusters, sets, k, port, r, c)
    requires i in Holders(sets, k) && clusters[i].current
    ensures r.named.value.sameCluster
  {
    assert !Below(ClusterKey(clusters[i]), ClusterKey(clusters[c]));
  }

  /** What is left undecided is some of the objects sharing the address. */
  lemma UndecidedAmongShared(clusters: seq<Cluster>, sets: seq<Addresses>, k: string, port: string, r: Found, c: nat)
    requires |clusters| == |sets| && NamesOf(clusters, sets, k, port, r, c)
    ensures 0 <= r.undecided <= r.named.value.sharedBy
    ensures r.named.value.target in sets[c] && r.named.value.target.address == k
  {
    UndecidedIsBounded(ObjectsAt(sets[c], k), port, r.named.value.target, r.undecided);
    CandidatesAreObjects(ObjectsAt(sets[c], k), port, r.named.value.target);
  }
}
