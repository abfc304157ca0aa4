/** Editing container environments: the request's validation, the strategic
    merge patch built from it, and what Kubernetes makes of that patch. */
module EnvPatch {
  import opened Options
  import opened Filters
  import opened MergePatches

  // ---- the request ----

  /** valueFrom is the members of the source object. */
  datatype EnvRow = EnvRow(name: string, action: string, value: Option<string>, valueFrom: Option<map<string, Json>>)

  datatype ContainerRow = ContainerRow(container: string, init: bool, env: seq<EnvRow>)

  datatype Complaint =
    | NoContainers
    | NoContainerName(ci: nat)
    | NoEnv(ci: nat)
    | NoName(ci: nat, ei: nat)
    | BadName(ci: nat, ei: nat)
    | Duplicate(ci: nat, name: string)
    | NotOneSource(ci: nat, ei: nat)
    | SourceOnRemove(ci: nat, ei: nat)
    | BadAction(ci: nat, ei: nat)

  predicate RowOk(e: EnvRow, identifier: string -> bool) {
    && e.name != "" && identifier(e.name)
    && (e.action == "set" ==> e.value.Some? != e.valueFrom.Some?)
    && (e.action == "remove" ==> e.value.None? && e.valueFrom.None?)
    && (e.action == "set" || e.action == "remove")
  }

  ghost predicate ContainerOk(c: ContainerRow, identifier: string -> bool) {
    && c.container != "" && c.env != []
    && (forall i | 0 <= i < |c.env| :: RowOk(c.env[i], identifier))
    && (forall i, j | 0 <= i < j < |c.env| :: c.env[i].name != c.env[j].name)
  }

  ghost predicate RequestOk(rows: seq<ContainerRow>, identifier: string -> bool) {
    rows != [] && forall ci | 0 <= ci < |rows| :: ContainerOk(rows[ci], identifier)
  }

  method CheckRow(e: EnvRow, ci: nat, ei: nat, seen: set<string>, identifier: string -> bool)
    returns (bad: Option<Complaint>)
    ensures bad.None? <==> RowOk(e, identifier) && e.name !in seen
  {
    if e.name == "" { return Some(NoName(ci, ei)); }
    if !identifier(e.name) { return Some(BadName(ci, ei)); }
    if e.name in seen { return Some(Duplicate(ci, e.name)); }
    if e.action == "set" {
      if e.value.Some? == e.valueFrom.Some? { return Some(NotOneSource(ci, ei)); }
    } else if e.action == "remove" {
      if e.value.Some? || e.valueFrom.Some? { return Some(SourceOnRemove(ci, ei)); }
    } else {
      return Some(BadAction(ci, ei));
    }
    return None;
  }

  method CheckContainer(c: ContainerRow, ci: nat, identifier: string -> bool) returns (bad: Option<Complaint>)
    ensures bad.None? <==> ContainerOk(c, identifier)
  {
    if c.container == "" { return Some(NoContainerName(ci)); }
    if |c.env| == 0 { return Some(NoEnv(ci)); }
    var seen := {};
    for ei := 0 to |c.env|
      invariant seen == set i | 0 <= i < ei :: c.env[i].name
      invariant forall i | 0 <= i < ei :: RowOk(c.env[i], identifier)
      invariant forall i, j | 0 <= i < j < ei :: c.env[i].name != c.env[j].name
    {
      bad := CheckRow(c.env[ei], ci, ei, seen, identifier);
      if bad.Some? { return; }
      seen := seen + {c.env[ei].name};
    }
    return None;
  }

  /** A request is accepted exactly when it names containers, each with rows of well-formed
      names, none twice: a set row has one of value and source, a remove row neither. */
  method Validate(rows: seq<ContainerRow>, identifier: string -> bool) returns (bad: Option<Complaint>)
    ensures bad.None? <==> RequestOk(rows, identifier)
    ensures bad.None? <==>
            && rows != []
            && (forall ci | 0 <= ci < |rows| :: rows[ci].container != "" && rows[ci].env != [])
            && (forall ci, i, j | 0 <= ci < |rows| && 0 <= i < j < |rows[ci].env| ::
                  rows[ci].env[i].name != rows[ci].env[j].name)
            && (forall ci, i | 0 <= ci < |rows| && 0 <= i < |rows[ci].env| ::
                  var e := rows[ci].env[i];
                  && e.name != "" && identifier(e.name)
                  && ((e.action == "set" && e.value.Some? && e.valueFrom.None?)
                      || (e.action == "set" && e.value.None? && e.valueFrom.Some?)
                      || (e.action == "remove" && e.value.None? && e.valueFrom.None?)))
  {
    if |rows| == 0 { return Some(NoContainers); }
    for ci := 0 to |rows|
      invariant forall i | 0 <= i < ci :: ContainerOk(rows[i], identifier)
    {
      bad := CheckContainer(rows[ci], ci, identifier);
      if bad.Some? { return; }
    }
    return None;
  }

  // ---- the patch ----

  /** An entry to merge by name, or one marked $patch: delete. */
  datatype EnvItem = SetItem(name: string, content: map<string, Json>) | DeleteItem(name: string)

  datatype ContainerPatch = ContainerPatch(name: string, env: seq<EnvItem>)

  datatype TemplatePatch = TemplatePatch(containers: seq<ContainerPatch>, initContainers: seq<ContainerPatch>,
                                         annotations: map<string, string>)

  /** What the entry should become: its members besides the name. */
  function Content(e: EnvRow): map<string, Json> {
    (if e.value.Some? then map["value" := JString(e.value.value)] else map[])
    + (if e.valueFrom.Some? then map["valueFrom" := JObject(e.valueFrom.value)] else map[])
  }

  function ItemOf(e: EnvRow): EnvItem {
    if e.action == "remove" then DeleteItem(e.name)
    else SetItem(e.name, if e.action == "set" then Content(e) else map[])
  }

  function ItemsOf(env: seq<EnvRow>): seq<EnvItem> {
    seq(|env|, i requires 0 <= i < |env| => ItemOf(env[i]))
  }

  /** The patches of one of the two container lists, in request order. */
  function PatchesOf(rows: seq<ContainerRow>, init: bool): seq<ContainerPatch> {
    if rows == [] then []
    else
      var n := |rows| - 1;
      PatchesOf(rows[..n], init) +
      if rows[n].init == init then [ContainerPatch(rows[n].container, ItemsOf(rows[n].env))] else []
  }

  const RESTARTED_AT := "kubectl.kubernetes.io/restartedAt"

  function PatchFor(rows: seq<ContainerRow>, triggerRollout: bool, now: string): TemplatePatch {
    TemplatePatch(PatchesOf(rows, false), PatchesOf(rows, true),
                  if triggerRollout then map[RESTARTED_AT := now] else map[])
  }

  function OfList(init: bool): ContainerRow -> bool { (c: ContainerRow) => c.init == init }

  lemma {:induction false} PatchesByRow(rows: seq<ContainerRow>, init: bool)
    ensures var ps, from := PatchesOf(rows, init), Filter(rows, OfList(init));
            && |ps| == |from|
            && forall k | 0 <= k < |ps| :: ps[k] == ContainerPatch(from[k].container, ItemsOf(from[k].env))
  {
    if rows != [] { PatchesByRow(rows[..|rows| - 1], init); }
  }

  /** One list's patches: its rows' containers, in order, entry by entry. */
  ghost predicate PatchesList(ps: seq<ContainerPatch>, rows: seq<ContainerRow>) {
    |ps| == |rows| && forall k | 0 <= k < |ps| ::
      ps[k].name == rows[k].container && |ps[k].env| == |rows[k].env| &&
      forall i | 0 <= i < |rows[k].env| :: EntryFor(ps[k].env[i], rows[k].env[i])
  }

  /** A removed name is marked deleted; a set one carries its value or its source. */
  ghost predicate EntryFor(item: EnvItem, e: EnvRow) {
    && item.name == e.name && (item.DeleteItem? <==> e.action == "remove")
    && (e.action == "set" && e.value.Some? && e.valueFrom.None? ==>
          item.content == map["value" := JString(e.value.value)])
    && (e.action == "set" && e.value.None? && e.valueFrom.Some? ==>
          item.content == map["valueFrom" := JObject(e.valueFrom.value)])
  }

  lemma PatchesAreListed(rows: seq<ContainerRow>, init: bool)
    ensures PatchesList(PatchesOf(rows, init), Filter(rows, OfList(init)))
  {
    PatchesByRow(rows, init);
  }

  method BuildSetEnvPatch(rows: seq<ContainerRow>, triggerRollout: bool, now: string) returns (p: TemplatePatch)
    ensures p == PatchFor(rows, triggerRollout, now)
    ensures PatchesList(p.containers, Filter(rows, (c: ContainerRow) => !c.init))
    ensures PatchesList(p.initContainers, Filter(rows, (c: ContainerRow) => c.init))
    ensures p.annotations == if triggerRollout then map["kubectl.kubernetes.io/restartedAt" := now] else map[]
  {
    PatchesAreListed(rows, false);
    PatchesAreListed(rows, true);
    FilterAgrees(rows, OfList(false), (c: ContainerRow) => !c.init);
    FilterAgrees(rows, OfList(true), (c: ContainerRow) => c.init);
    var normal: seq<ContainerPatch>, init: seq<ContainerPatch> := [], [];
    for i := 0 to |rows|
      invariant normal == PatchesOf(rows[..i], false)
      invariant init == PatchesOf(rows[..i], true)
    {
      assert rows[..i + 1][..i] == rows[..i];
      var entries := BuildEntries(rows[i].env);
      var entry := ContainerPatch(rows[i].container, entries);
      if rows[i].init { init := init + [entry]; } else { normal := normal + [entry]; }
    }
    assert rows[..|rows|] == rows;
    p := TemplatePatch(normal, init, if triggerRollout then map[RESTARTED_AT := now] else map[]);
  }

  method BuildEntries(env: seq<EnvRow>) returns (entries: seq<EnvItem>)
    ensures entries == ItemsOf(env)
  {
    entries := [];
    for i := 0 to |env|
      invariant entries == ItemsOf(env[..i])
    {
      var e := env[i];
      if e.action == "remove" {
        entries := entries + [DeleteItem(e.name)];
      } else {
        var content: map<string, Json> := map[];
        if e.action == "set" {
          if e.value.Some? { content := content["value" := JString(e.value.value)]; }
          if e.valueFrom.Some? { content := content["valueFrom" := JObject(e.valueFrom.value)]; }
        }
        assert e.action == "set" ==> content == Content(e);
        entries := entries + [SetItem(e.name, content)];
      }
    }
    assert env[..|env|] == env;
  }

  // ---- strategic merge, on lists keyed by name ----

  /** env by name; other is the rest of the container. */
  datatype Container = Container(env: map<string, Json>, other: Json)

  datatype Template = Template(containers: map<string, Container>, initContainers: map<string, Container>,
                               annotations: map<string, string>, other: Json)

  function Deleted(items: seq<EnvItem>): set<string> {
    set i | 0 <= i < |items| && items[i].DeleteItem? :: items[i].name
  }

  /** Each entry is merged, member by member, into the live one of its name, or added. */
  function MergeItems(env: map<string, Json>, items: seq<EnvItem>): map<string, Json> {
    if items == [] then env
    else
      var n := |items| - 1;
      var before := MergeItems(env, items[..n]);
      if items[n].DeleteItem? then before
      else
        var name := items[n].name;
        before[name := MergePatch(if name in before then before[name] else JNull, JObject(items[n].content))]
  }

  /** Deletions first, then the rest. */
  function MergeEnv(env: map<string, Json>, items: seq<EnvItem>): map<string, Json> {
    MergeItems(env - Deleted(items), items)
  }

  /** A container the list does not hold would be added. */
  function MergeContainer(live: map<string, Container>, p: ContainerPatch): map<string, Container> {
    var was := if p.name in live then live[p.name] else Container(map[], JObject(map[]));
    live[p.name := was.(env := MergeEnv(was.env, p.env))]
  }

  function MergeContainers(live: map<string, Container>, patches: seq<ContainerPatch>): map<string, Container> {
    if patches == [] then live
    else MergeContainer(MergeContainers(live, patches[..|patches| - 1]), patches[|patches| - 1])
  }

  function Apply(t: Template, p: TemplatePatch): Template {
    t.(containers := MergeContainers(t.containers, p.containers),
       initContainers := MergeContainers(t.initContainers, p.initContainers),
       annotations := t.annotations + p.annotations)
  }

  // ---- when a merged entry is the new content ----

  predicate NullFree(j: Json)
    decreases j
  {
    match j
    case JNull => false
    case JObject(fields) => forall k | k in fields :: NullFree(fields[k])
    case _ => true
  }

  /** live holds no member, at any depth, that the new content does not have. */
  predicate NoLeftovers(live: Json, content: Json)
    decreases content
  {
    content.JObject? ==>
      forall k | k in Fields(live) :: k in content.fields && NoLeftovers(Fields(live)[k], content.fields[k])
  }

  /** Merging gives the new content exactly when the live entry has nothing left over. */
  lemma {:induction false} MergeReplaces(live: Json, content: Json)
    requires NullFree(content)
    ensures MergePatch(live, content) == content <==> NoLeftovers(live, content)
    decreases content
  {
    if content.JObject? {
      var merged := MergePatch(live, content);
      forall k | k in content.fields
        ensures k in merged.fields
        ensures merged.fields[k] == content.fields[k] <==>
                NoLeftovers(if k in Fields(live) then Fields(live)[k] else JNull, content.fields[k])
      {
        MergeReplaces(if k in Fields(live) then Fields(live)[k] else JNull, content.fields[k]);
      }
      assert merged.fields.Keys == content.fields.Keys + Fields(live).Keys;
    }
  }

  // ---- what one container's entries become ----

  ghost predicate DistinctNames(items: seq<EnvItem>) {
    forall i, j | 0 <= i < j < |items| :: items[i].name != items[j].name
  }

  lemma {:induction false} MergedItem(env: map<string, Json>, items: seq<EnvItem>, i: nat)
    requires DistinctNames(items) && i < |items| && items[i].SetItem?
    ensures var r, name := MergeItems(env, items), items[i].name;
            name in r && r[name] == MergePatch(if name in env then env[name] else JNull, JObject(items[i].content))
  {
    var n := |items| - 1;
    if i < n {
      MergedItem(env, items[..n], i);
    } else {
      UntouchedEntry(env, items[..n], items[i].name);
    }
  }

  lemma {:induction false} UntouchedEntry(env: map<string, Json>, items: seq<EnvItem>, name: string)
    requires forall i | 0 <= i < |items| && items[i].SetItem? :: items[i].name != name
    ensures var r := MergeItems(env, items); (name in r <==> name in env) && (name in env ==> r[name] == env[name])
  {
    if items != [] {
      UntouchedEntry(env, items[..|items| - 1], name);
    }
  }

  /** What one row asks of the entries it finds. */
  ghost predicate RowDone(was: map<string, Json>, now: map<string, Json>, e: EnvRow) {
    && (e.action == "remove" ==> e.name !in now)
    && (e.action == "set" && e.value.Some? ==> Became(was, now, e.name, "value", JString(e.value.value)))
    && (e.action == "set" && e.value.None? && e.valueFrom.Some? ==>
          Became(was, now, e.name, "valueFrom", JObject(e.valueFrom.value)))
  }

  /** The entry holds the new member, and is just that exactly when the live one had nothing left over. */
  ghost predicate Became(was: map<string, Json>, now: map<string, Json>, name: string, member: string, content: Json) {
    && name in now && member in Fields(now[name])
    && (now[name] == JObject(map[member := content]) <==>
          (name in was ==> NoLeftovers(was[name], JObject(map[member := content]))))
    && (content.JString? ==> Fields(now[name])[member] == content)
  }

  ghost predicate SourcesNullFree(env: seq<EnvRow>) {
    forall i | 0 <= i < |env| && env[i].valueFrom.Some? :: NullFree(JObject(env[i].valueFrom.value))
  }

  lemma RowIsDone(was: map<string, Json>, c: ContainerRow, identifier: string -> bool, i: nat)
    requires ContainerOk(c, identifier) && SourcesNullFree(c.env) && i < |c.env|
    ensures RowDone(was, MergeEnv(was, ItemsOf(c.env)), c.env[i])
  {
    var items, e := ItemsOf(c.env), c.env[i];
    var kept := was - Deleted(items);
    assert items[i] == ItemOf(e) && RowOk(e, identifier);
    if e.action == "remove" {
      assert e.name in Deleted(items);
      UntouchedEntry(kept, items, e.name);
    } else {
      forall j | 0 <= j < |items| && items[j].DeleteItem? ensures items[j].name != e.name {
        assert items[j] == ItemOf(c.env[j]);
      }
      MergedItem(kept, items, i);
      MergeReplaces(if e.name in was then was[e.name] else JNull, JObject(Content(e)));
      assert Content(e) == if e.value.Some? then map["value" := JString(e.value.value)]
                           else map["valueFrom" := JObject(e.valueFrom.value)];
    }
  }

  lemma OtherEntriesStay(was: map<string, Json>, env: seq<EnvRow>, name: string)
    requires forall i | 0 <= i < |env| :: env[i].name != name
    ensures var now := MergeEnv(was, ItemsOf(env));
            (name in now <==> name in was) && (name in was ==> now[name] == was[name])
  {
    var items := ItemsOf(env);
    forall i | 0 <= i < |items| ensures items[i].name != name { assert items[i] == ItemOf(env[i]); }
    UntouchedEntry(was - Deleted(items), items, name);
  }

  // ---- what the containers become ----

  ghost predicate ListedOnce(rows: seq<ContainerRow>) {
    forall i, j | 0 <= i < j < |rows| && rows[i].init == rows[j].init :: rows[i].container != rows[j].container
  }

  /** The rows of one list merged one after the other. */
  function MergeRows(live: map<string, Container>, rows: seq<ContainerRow>, init: bool): map<string, Container> {
    if rows == [] then live
    else
      var n := |rows| - 1;
      var before := MergeRows(live, rows[..n], init);
      if rows[n].init != init then before
      else MergeContainer(before, ContainerPatch(rows[n].container, ItemsOf(rows[n].env)))
  }

  lemma MergeOneMore(live: map<string, Container>, ps: seq<ContainerPatch>, p: ContainerPatch)
    ensures MergeContainers(live, ps + [p]) == MergeContainer(MergeContainers(live, ps), p)
  {
  }

  lemma {:induction false} PatchMergesRows(live: map<string, Container>, rows: seq<ContainerRow>, init: bool)
    ensures MergeContainers(live, PatchesOf(rows, init)) == MergeRows(live, rows, init)
  {
    if rows != [] {
      var n := |rows| - 1;
      var before, p := PatchesOf(rows[..n], init), ContainerPatch(rows[n].container, ItemsOf(rows[n].env));
      PatchMergesRows(live, rows[..n], init);
      MergeOneMore(live, before, p);
      assert PatchesOf(rows, init) == before + if rows[n].init == init then [p] else [];
      assert before + [] == before;
    }
  }

  lemma {:induction false} UnlistedContainer(live: map<string, Container>, rows: seq<ContainerRow>, init: bool,
                                             name: string)
    requires forall i | 0 <= i < |rows| && rows[i].init == init :: rows[i].container != name
    ensures var r := MergeRows(live, rows, init);
            (name in r <==> name in live) && (name in live ==> r[name] == live[name])
  {
    if rows != [] {
      UnlistedContainer(live, rows[..|rows| - 1], init, name);
    }
  }

  lemma {:induction false} ListedContainer(live: map<string, Container>, rows: seq<ContainerRow>, init: bool, i: nat)
    requires ListedOnce(rows) && i < |rows| && rows[i].init == init && rows[i].container in live
    ensures var r, was := MergeRows(live, rows, init), live[rows[i].container];
            rows[i].container in r && r[rows[i].container] == was.(env := MergeEnv(was.env, ItemsOf(rows[i].env)))
  {
    var n := |rows| - 1;
    if i < n {
      ListedContainer(live, rows[..n], init, i);
    } else {
      UnlistedContainer(live, rows[..n], init, rows[i].container);
    }
  }

  // ---- the request as a whole ----

  function Side(t: Template, init: bool): map<string, Container> {
    if init then t.initContainers else t.containers
  }

  ghost predicate SameEntry(was: map<string, Json>, now: map<string, Json>, name: string) {
    (name in now <==> name in was) && (name in was ==> now[name] == was[name])
  }

  ghost predicate Mentions(env: seq<EnvRow>, name: string) {
    exists i :: 0 <= i < |env| && env[i].name == name
  }

  /** Every row of a container is done, and nothing else of it moved. */
  ghost predicate ContainerDone(was: Container, now: Container, env: seq<EnvRow>) {
    && was.other == now.other
    && (forall i | 0 <= i < |env| :: RowDone(was.env, now.env, env[i]))
    && (forall name | !Mentions(env, name) :: SameEntry(was.env, now.env, name))
  }

  lemma ContainerIsDone(was: Container, c: ContainerRow, identifier: string -> bool)
    requires ContainerOk(c, identifier) && SourcesNullFree(c.env)
    ensures ContainerDone(was, was.(env := MergeEnv(was.env, ItemsOf(c.env))), c.env)
  {
    forall i | 0 <= i < |c.env| ensures RowDone(was.env, MergeEnv(was.env, ItemsOf(c.env)), c.env[i]) {
      RowIsDone(was.env, c, identifier, i);
    }
    forall name | !Mentions(c.env, name) ensures SameEntry(was.env, MergeEnv(was.env, ItemsOf(c.env)), name) {
      OtherEntriesStay(was.env, c.env, name);
    }
  }

  /** Whether some row names this container of this list. */
  ghost predicate Listed(rows: seq<ContainerRow>, init: bool, name: string) {
    exists i :: 0 <= i < |rows| && rows[i].init == init && rows[i].container == name
  }

  /** Each container listed once, and no source member null. */
  ghost predicate Clean(rows: seq<ContainerRow>) {
    ListedOnce(rows) && forall i | 0 <= i < |rows| :: SourcesNullFree(rows[i].env)
  }

  ghost predicate AllLive(t: Template, rows: seq<ContainerRow>) {
    forall i | 0 <= i < |rows| :: rows[i].container in Side(t, rows[i].init)
  }

  /** What a patched template owes a request, container row by container row. */
  ghost predicate RowsDone(t: Template, u: Template, rows: seq<ContainerRow>) {
    && AllLive(t, rows) && AllLive(u, rows)
    && (forall i | 0 <= i < |rows| ::
          ContainerDone(Side(t, rows[i].init)[rows[i].container], Side(u, rows[i].init)[rows[i].container],
                        rows[i].env))
  }

  lemma SidesMerge(t: Template, rows: seq<ContainerRow>, triggerRollout: bool, now: string, init: bool)
    ensures Side(Apply(t, PatchFor(rows, triggerRollout, now)), init) == MergeRows(Side(t, init), rows, init)
  {
    PatchMergesRows(Side(t, init), rows, init);
  }

  lemma ListedIsDone(live: map<string, Container>, merged: map<string, Container>, rows: seq<ContainerRow>,
                     identifier: string -> bool, i: nat)
    requires RequestOk(rows, identifier) && Clean(rows) && i < |rows| && rows[i].container in live
    requires merged == MergeRows(live, rows, rows[i].init)
    ensures rows[i].container in merged
    ensures ContainerDone(live[rows[i].container], merged[rows[i].container], rows[i].env)
  {
    ListedContainer(live, rows, rows[i].init, i);
    ContainerIsDone(live[rows[i].container], rows[i], identifier);
  }

  /** Applying the built patch: every "remove" row's entry is gone, every "set"
      row's entry is its new content exactly when nothing of the live entry is
      left over, and every other entry of those containers is as it was. */
  lemma PatchDoesTheRequest(t: Template, rows: seq<ContainerRow>, triggerRollout: bool, now: string,
                            identifier: string -> bool)
    requires RequestOk(rows, identifier) && Clean(rows) && AllLive(t, rows)
    ensures RowsDone(t, Apply(t, PatchFor(rows, triggerRollout, now)), rows)
  {
    var u := Apply(t, PatchFor(rows, triggerRollout, now));
    forall i | 0 <= i < |rows|
      ensures rows[i].container in Side(u, rows[i].init)
      ensures ContainerDone(Side(t, rows[i].init)[rows[i].container], Side(u, rows[i].init)[rows[i].container],
                            rows[i].env)
    {
      SidesMerge(t, rows, triggerRollout, now, rows[i].init);
      ListedIsDone(Side(t, rows[i].init), Side(u, rows[i].init), rows, identifier, i);
    }
  }

  /** Containers and init containers no row names are as they were. */
  lemma PatchLeavesTheRest(t: Template, rows: seq<ContainerRow>, triggerRollout: bool, now: string, init: bool,
                           name: string)
    requires !Listed(rows, init, name)
    ensures var was, after := Side(t, init), Side(Apply(t, PatchFor(rows, triggerRollout, now)), init);
            (name in after <==> name in was) && (name in was ==> after[name] == was[name])
  {
    SidesMerge(t, rows, triggerRollout, now, init);
    UnlistedContainer(Side(t, init), rows, init, name);
  }

  /** Besides the two lists only the restart stamp is touched, and only on demand. */
  lemma PatchStampsOnly(t: Template, rows: seq<ContainerRow>, triggerRollout: bool, now: string)
    ensures var u := Apply(t, PatchFor(rows, triggerRollout, now));
            && u.annotations == (if triggerRollout then t.annotations[RESTARTED_AT := now] else t.annotations)
            && u.other == t.other
  {
    if triggerRollout {
      assert t.annotations + map[RESTARTED_AT := now] == t.annotations[RESTARTED_AT := now];
    } else {
      assert t.annotations + map[] == t.annotations;
    }
  }

  /** What a template becomes of a request: the rows are done, all other containers are as
      they were, and the restart stamp is set on demand. */
  ghost predicate RequestDone(t: Template, u: Template, rows: seq<ContainerRow>, triggerRollout: bool, now: string) {
    && RowsDone(t, u, rows) && u.other == t.other
    && (forall name | !Listed(rows, false, name) :: SameContainer(t.containers, u.containers, name))
    && (forall name | !Listed(rows, true, name) :: SameContainer(t.initContainers, u.initContainers, name))
    && u.annotations ==
       if triggerRollout then t.annotations[RESTARTED_AT := now] else t.annotations
  }

  ghost predicate SameContainer(was: map<string, Container>, now: map<string, Container>, name: string) {
    (name in now <==> name in was) && (name in was ==> now[name] == was[name])
  }

  lemma PatchDoesIt(t: Template, rows: seq<ContainerRow>, triggerRollout: bool, now: string, identifier: string -> bool)
    requires RequestOk(rows, identifier) && Clean(rows) && AllLive(t, rows)
    ensures RequestDone(t, Apply(t, PatchFor(rows, triggerRollout, now)), rows, triggerRollout, now)
  {
    var u := Apply(t, PatchFor(rows, triggerRollout, now));
    PatchDoesTheRequest(t, rows, triggerRollout, now, identifier);
    PatchStampsOnly(t, rows, triggerRollout, now);
    forall name | !Listed(rows, false, name) ensures SameContainer(t.containers, u.containers, name) {
      PatchLeavesTheRest(t, rows, triggerRollout, now, false, name);
    }
    forall name | !Listed(rows, true, name) ensures SameContainer(t.initContainers, u.initContainers, name) {
      PatchLeavesTheRest(t, rows, triggerRollout, now, true, name);
    }
  }

  /** A literal set over a literal always becomes the new value. */
  lemma LiteralOverLiteral(old_: string, e: EnvRow)
    requires e.action == "set" && e.value.Some? && e.valueFrom.None?
    ensures MergePatch(JObject(map["value" := JString(old_)]), JObject(Content(e))) ==
            JObject(map["value" := JString(e.value.value)])
  {
  }

  /** Turning a literal into a reference leaves the literal beside it. */
  lemma LiteralToReferenceLeavesBoth(text: string, source: map<string, Json>)
    ensures var e := EnvRow("A", "set", None, Some(source));
            var merged := MergePatch(JObject(map["value" := JString(text)]), JObject(Content(e)));
            && "value" in merged.fields && merged.fields["value"] == JString(text)
            && "valueFrom" in merged.fields && merged != JObject(map["valueFrom" := JObject(source)])
  {
  }

  // ---- references ----

  const CONFIG_MAP_REF := "configMapKeyRef"
  const SECRET_REF := "secretKeyRef"

  /** The name of the object a set row's reference must find; none when the source
      has no such reference. */
  function RefOf(e: EnvRow, member: string): Option<map<string, Json>> {
    if e.action == "set" && e.valueFrom.Some? && member in e.valueFrom.value && e.valueFrom.value[member].JObject?
    then Some(e.valueFrom.value[member].fields) else None
  }

  predicate IsOptional(ref: map<string, Json>) { "optional" in ref && ref["optional"] == JBool(true) }

  function RefName(ref: map<string, Json>): string {
    if "name" in ref && ref["name"].JString? then ref["name"].text else ""
  }

  /** The row's reference, unless it is optional, names an object of the namespace. */
  predicate RefFound(e: EnvRow, member: string, names: set<string>) {
    var ref := RefOf(e, member);
    ref.Some? && !IsOptional(ref.value) ==> RefName(ref.value) in names
  }

  predicate SourcesFound(e: EnvRow, configMaps: set<string>, secrets: set<string>) {
    RefFound(e, CONFIG_MAP_REF, configMaps) && RefFound(e, SECRET_REF, secrets)
  }

  ghost predicate AllFound(rows: seq<ContainerRow>, configMaps: set<string>, secrets: set<string>) {
    forall c, e | c in rows && e in c.env :: SourcesFound(e, configMaps, secrets)
  }

  /** A source with both references, which Kubernetes refuses. */
  predicate TwoRefs(e: EnvRow) { RefOf(e, CONFIG_MAP_REF).Some? && RefOf(e, SECRET_REF).Some? }

  ghost predicate OneSourceEach(rows: seq<ContainerRow>) {
    forall c, e | c in rows && e in c.env :: !TwoRefs(e)
  }

  /** What each kind of object was already looked up for. */
  datatype Checked = Checked(configMaps: set<string>, secrets: set<string>)

  /** One row: the config map first; one that is optional or known ends the row there. */
  method CheckSources(e: EnvRow, configMaps: set<string>, secrets: set<string>, was: Checked)
    returns (found: bool, checked: Checked)
    requires was.configMaps <= configMaps && was.secrets <= secrets
    ensures checked.configMaps <= configMaps && checked.secrets <= secrets
    ensures SourcesFound(e, configMaps, secrets) ==> found
    ensures found && !TwoRefs(e) ==> SourcesFound(e, configMaps, secrets)
  {
    found, checked := true, was;
    var ref := RefOf(e, CONFIG_MAP_REF);
    if ref.Some? {
      if IsOptional(ref.value) || RefName(ref.value) in checked.configMaps { return; }
      if RefName(ref.value) !in configMaps { return false, checked; }
      checked := checked.(configMaps := checked.configMaps + {RefName(ref.value)});
    }
    ref := RefOf(e, SECRET_REF);
    if ref.Some? {
      if IsOptional(ref.value) || RefName(ref.value) in checked.secrets { return; }
      if RefName(ref.value) !in secrets { return false, checked; }
      checked := checked.(secrets := checked.secrets + {RefName(ref.value)});
    }
  }

  /** A set row's source refers to a config map or a secret, not optionally, that is not there. */
  ghost predicate Dangles(e: EnvRow, configMaps: set<string>, secrets: set<string>) {
    && e.action == "set" && e.valueFrom.Some?
    && (|| NotThere(e.valueFrom.value, "configMapKeyRef", configMaps)
        || NotThere(e.valueFrom.value, "secretKeyRef", secrets))
  }

  ghost predicate NotThere(source: map<string, Json>, member: string, names: set<string>) {
    && member in source && source[member].JObject?
    && var ref := source[member].fields;
       && !("optional" in ref && ref["optional"] == JBool(true))
       && (if "name" in ref && ref["name"].JString? then ref["name"].text !in names else "" !in names)
  }

  lemma DanglingIsNotFound(e: EnvRow, configMaps: set<string>, secrets: set<string>)
    ensures SourcesFound(e, configMaps, secrets) <==> !Dangles(e, configMaps, secrets)
  {
  }

  /** The first row whose reference finds nothing. */
  method ValidateSourceRefs(rows: seq<ContainerRow>, configMaps: set<string>, secrets: set<string>)
    returns (missing: Option<(nat, nat)>)
    ensures missing.Some? ==>
              && missing.value.0 < |rows| && missing.value.1 < |rows[missing.value.0].env|
              && Dangles(rows[missing.value.0].env[missing.value.1], configMaps, secrets)
    ensures missing.None? && OneSourceEach(rows) ==>
              forall ci, ei | 0 <= ci < |rows| && 0 <= ei < |rows[ci].env| ::
                !Dangles(rows[ci].env[ei], configMaps, secrets)
    ensures AllFound(rows, configMaps, secrets) ==> missing.None?
    ensures missing.None? && OneSourceEach(rows) ==> AllFound(rows, configMaps, secrets)
  {
    var checked := Checked({}, {});
    for ci := 0 to |rows|
      invariant checked.configMaps <= configMaps && checked.secrets <= secrets
      invariant OneSourceEach(rows) ==> AllFound(rows[..ci], configMaps, secrets)
    {
      var env := rows[ci].env;
      assert rows[ci] in rows;
      for ei := 0 to |env|
        invariant checked.configMaps <= configMaps && checked.secrets <= secrets
        invariant OneSourceEach(rows) ==> forall e | e in env[..ei] :: SourcesFound(e, configMaps, secrets)
      {
        var found;
        assert env[ei] in env;
        found, checked := CheckSources(env[ei], configMaps, secrets, checked);
        if !found {
          DanglingIsNotFound(env[ei], configMaps, secrets);
          return Some((ci, ei));
        }
        assert env[..ei + 1] == env[..ei] + [env[ei]];
      }
      assert env[..|env|] == env && rows[..ci + 1] == rows[..ci] + [rows[ci]];
    }
    assert rows[..|rows|] == rows;
    if OneSourceEach(rows) { NoneDangles(rows, configMaps, secrets); }
    return None;
  }

  lemma NoneDangles(rows: seq<ContainerRow>, configMaps: set<string>, secrets: set<string>)
    requires AllFound(rows, configMaps, secrets)
    ensures forall ci, ei | 0 <= ci < |rows| && 0 <= ei < |rows[ci].env| ::
              !Dangles(rows[ci].env[ei], configMaps, secrets)
  {
    forall ci, ei | 0 <= ci < |rows| && 0 <= ei < |rows[ci].env|
      ensures !Dangles(rows[ci].env[ei], configMaps, secrets)
    {
      assert rows[ci] in rows && rows[ci].env[ei] in rows[ci].env;
      DanglingIsNotFound(rows[ci].env[ei], configMaps, secrets);
    }
  }

  // ---- the handler ----

  datatype Reply =
    | Invalid(complaint: Complaint)
    | MissingSource(ci: nat, ei: nat)
    | NotFound(container: string, init: bool)
    | Patched(template: Template)

  method FindContainers(t: Template, rows: seq<ContainerRow>) returns (missing: Option<ContainerRow>)
    ensures missing.None? <==> AllLive(t, rows)
    ensures missing.Some? ==> missing.value in rows && missing.value.container !in Side(t, missing.value.init)
  {
    for i := 0 to |rows|
      invariant forall j | 0 <= j < i :: rows[j].container in Side(t, rows[j].init)
    {
      if rows[i].container !in Side(t, rows[i].init) { return Some(rows[i]); }
    }
    return None;
  }

  /** A malformed request, one whose references find nothing, or one naming an absent
      container changes nothing; any other sends the built patch. */
  method SetEnv(t: Template, rows: seq<ContainerRow>, triggerRollout: bool, now: string, identifier: string -> bool,
                configMaps: set<string>, secrets: set<string>)
    returns (r: Reply)
    ensures r.Invalid? <==> !RequestOk(rows, identifier)
    ensures r.MissingSource? ==> !AllFound(rows, configMaps, secrets)
    ensures OneSourceEach(rows) ==>
              (r.MissingSource? <==> RequestOk(rows, identifier) && !AllFound(rows, configMaps, secrets))
    ensures r.NotFound? <==> RequestOk(rows, identifier) && !r.MissingSource? && !AllLive(t, rows)
    ensures r.Patched? ==> r.template == Apply(t, PatchFor(rows, triggerRollout, now))
    ensures r.Patched? && Clean(rows) ==> RequestDone(t, r.template, rows, triggerRollout, now)
  {
    var bad := Validate(rows, identifier);
    if bad.Some? { return Invalid(bad.value); }
    var gap := ValidateSourceRefs(rows, configMaps, secrets);
    if gap.Some? { return MissingSource(gap.value.0, gap.value.1); }
    var missing := FindContainers(t, rows);
    if missing.Some? { return NotFound(missing.value.container, missing.value.init); }
    var p := BuildSetEnvPatch(rows, triggerRollout, now);
    r := Patched(Apply(t, p));
    if Clean(rows) { PatchDoesIt(t, rows, triggerRollout, now, identifier); }
  }
}
