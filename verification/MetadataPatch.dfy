/** JSON values and the merge patch of RFC 7396, section 2. */
module MergePatches {

  datatype Json =
    | JNull
    | JBool(truth: bool)
    | JNumber(number: int)
    | JString(text: string)
    | JArray(items: seq<Json>)
    | JObject(fields: map<string, Json>)

  function Fields(j: Json): map<string, Json> { if j.JObject? then j.fields else map[] }

  /** null removes a member, an object is merged member by member, anything else replaces. */
  function MergePatch(target: Json, patch: Json): Json
    decreases patch
  {
    if !patch.JObject? then patch
    else
      var t := Fields(target);
      JObject(map k | k in t.Keys + patch.fields.Keys && !(k in patch.fields && patch.fields[k].JNull?) ::
                if k in patch.fields then MergePatch(if k in t then t[k] else JNull, patch.fields[k]) else t[k])
  }

  /** The string members of an object; anything else has none. */
  function StringMap(j: Json): map<string, string> {
    map k | k in Fields(j) && Fields(j)[k].JString? :: Fields(j)[k].text
  }
}

/** Editing the labels and annotations of an object. */
module MetadataPatch {
  import opened Options
  import Sums
  import opened MergePatches

  datatype Edit = Edit(add: map<string, string>, remove: seq<string>)

  // ---- the two readings of an edit ----

  /** The members an edit sends: removals win over additions. */
  function PatchOf(edit: Edit): map<string, Json> {
    map k | k in edit.add.Keys + (set r | r in edit.remove) :: if k in edit.remove then JNull else JString(edit.add[k])
  }

  function Applied(current: map<string, string>, edit: Edit): map<string, string> {
    map k | k in current.Keys + edit.add.Keys && k !in edit.remove :: if k in edit.add then edit.add[k] else current[k]
  }

  /** A removed key is sent as null, any other added key as its text, and no other key is sent. */
  method MergeAddRemove(edit: Edit) returns (out: map<string, Json>)
    ensures out == PatchOf(edit)
    ensures forall k :: k in out <==> k in edit.remove || k in edit.add
    ensures forall k | k in edit.remove :: out[k] == JNull
    ensures forall k | k in edit.add && k !in edit.remove :: out[k] == JString(edit.add[k])
  {
    out := map[];
    var rest := edit.add.Keys;
    while rest != {}
      invariant rest <= edit.add.Keys
      invariant out == map k | k in edit.add && k !in rest :: JString(edit.add[k])
      decreases rest
    {
      var k :| k in rest;
      out := out[k := JString(edit.add[k])];
      rest := rest - {k};
    }
    for i := 0 to |edit.remove|
      invariant out == PatchOf(edit.(remove := edit.remove[..i]))
    {
      out := out[edit.remove[i] := JNull];
      assert edit.remove[..i + 1] == edit.remove[..i] + [edit.remove[i]];
    }
    assert edit.remove[..|edit.remove|] == edit.remove;
  }

  lemma AppliedDropsOne(current: map<string, string>, add: map<string, string>, remove: seq<string>, k: string)
    ensures Applied(current, Edit(add, remove + [k])) == Applied(current, Edit(add, remove)) - {k}
  {
  }

  lemma AppliedAddsOne(current: map<string, string>, add: map<string, string>, k: string, v: string)
    ensures Applied(current, Edit(add[k := v], [])) == Applied(current, Edit(add, []))[k := v]
  {
  }

  /** Removed keys are gone, added ones have their new text, and every other key is as it was. */
  method ApplyMapEdit(current: map<string, string>, edit: Option<Edit>) returns (out: map<string, string>)
    ensures out == Wanted(current, edit)
    ensures edit.None? ==> out == current
    ensures edit.Some? ==> forall k :: k in out <==> (k in current || k in edit.value.add) && k !in edit.value.remove
    ensures edit.Some? ==> forall k | k in edit.value.add && k in out :: out[k] == edit.value.add[k]
    ensures edit.Some? ==> forall k | k !in edit.value.add && k in out :: out[k] == current[k]
  {
    out := current;
    if edit.None? { return; }
    var add, remove := edit.value.add, edit.value.remove;
    var rest := add.Keys;
    ghost var done: map<string, string> := map[];
    while rest != {}
      invariant rest <= add.Keys
      invariant done == map k | k in add && k !in rest :: add[k]
      invariant out == Applied(current, Edit(done, []))
      decreases rest
    {
      var k :| k in rest;
      AppliedAddsOne(current, done, k, add[k]);
      out := out[k := add[k]];
      done := done[k := add[k]];
      rest := rest - {k};
    }
    assert done == add;
    for i := 0 to |remove|
      invariant out == Applied(current, Edit(add, remove[..i]))
    {
      AppliedDropsOne(current, add, remove[..i], remove[i]);
      assert remove[..i + 1] == remove[..i] + [remove[i]];
      out := out - {remove[i]};
    }
    assert remove[..|remove|] == remove;
  }

  function Wanted(current: map<string, string>, edit: Option<Edit>): map<string, string> {
    if edit.None? then current else Applied(current, edit.value)
  }

  /** The merge patch an edit sends does to any JSON value what the pre-flight
      copy says: the same string members, whatever else the value held. */
  lemma EditIsMergePatch(current: Json, edit: Edit)
    ensures StringMap(MergePatch(current, JObject(PatchOf(edit)))) == Applied(StringMap(current), edit)
  {
  }

  // ---- the object ----

  function Section(edit: Option<Edit>, name: string): map<string, Json> {
    if edit.Some? then map[name := JObject(PatchOf(edit.value))] else map[]
  }

  function Sections(labels: Option<Edit>, annotations: Option<Edit>): (r: Json)
    ensures r.JObject?
  {
    JObject(Section(labels, "labels") + Section(annotations, "annotations"))
  }

  function PatchBody(labels: Option<Edit>, annotations: Option<Edit>): (r: Json)
    ensures r.JObject?
  {
    JObject(map["metadata" := Sections(labels, annotations)])
  }

  function Member(j: Json, name: string): Json {
    if name in Fields(j) then Fields(j)[name] else JNull
  }

  function LabelsOf(obj: Json): map<string, string> { StringMap(Member(Member(obj, "metadata"), "labels")) }
  function AnnotationsOf(obj: Json): map<string, string> { StringMap(Member(Member(obj, "metadata"), "annotations")) }

  /** One member of a merged object, null and absent alike. */
  lemma MergedMember(target: Json, patch: Json, name: string)
    requires patch.JObject?
    ensures name in patch.fields ==>
              Member(MergePatch(target, patch), name) == MergePatch(Member(target, name), patch.fields[name])
    ensures name !in patch.fields ==> Member(MergePatch(target, patch), name) == Member(target, name)
  {
  }

  /** The patch reaches the metadata of an object, and nothing else of it. */
  lemma PatchReachesMetadata(obj: Json, labels: Option<Edit>, annotations: Option<Edit>)
    ensures var patched := MergePatch(obj, PatchBody(labels, annotations));
            && Member(patched, "metadata") == MergePatch(Member(obj, "metadata"), Sections(labels, annotations))
            && forall other | other != "metadata" :: Member(patched, other) == Member(obj, other)
  {
    MergedMember(obj, PatchBody(labels, annotations), "metadata");
    UntouchedMembers(obj, PatchBody(labels, annotations));
  }

  lemma UntouchedMembers(target: Json, patch: Json)
    requires patch.JObject?
    ensures forall other | other !in patch.fields :: Member(MergePatch(target, patch), other) == Member(target, other)
  {
    forall other | other !in patch.fields ensures Member(MergePatch(target, patch), other) == Member(target, other) {
      MergedMember(target, patch, other);
    }
  }

  lemma SectionNames(labels: Option<Edit>, annotations: Option<Edit>)
    ensures var f := Sections(labels, annotations).fields;
            && (forall k | k in f :: k == "labels" || k == "annotations")
            && ("labels" in f <==> labels.Some?) && ("annotations" in f <==> annotations.Some?)
            && (labels.Some? ==> f["labels"] == JObject(PatchOf(labels.value)))
            && (annotations.Some? ==> f["annotations"] == JObject(PatchOf(annotations.value)))
  {
    assert "labels" != "annotations" by { assert "labels"[0] != "annotations"[0]; }
  }

  /** One of the two maps after an edit: as it was without one; else without the removed
      keys, with the added ones as text, and with every other member untouched. */
  ghost predicate Edited(was: Json, now: Json, edit: Option<Edit>) {
    match edit
    case None => now == was
    case Some(e) =>
      && (forall k | k in e.remove :: k !in Fields(now))
      && (forall k | k in e.add && k !in e.remove :: k in Fields(now) && Fields(now)[k] == JString(e.add[k]))
      && (forall k | k !in e.add && k !in e.remove ::
            (k in Fields(now) <==> k in Fields(was)) && (k in Fields(now) ==> Fields(now)[k] == Fields(was)[k]))
  }

  lemma EditedSection(target: Json, patch: Json, name: string, edit: Option<Edit>)
    requires patch.JObject? && (name in patch.fields <==> edit.Some?)
    requires edit.Some? ==> patch.fields[name] == JObject(PatchOf(edit.value))
    ensures Edited(Member(target, name), Member(MergePatch(target, patch), name), edit)
  {
    MergedMember(target, patch, name);
    if edit.Some? { MergedIsEdited(Member(target, name), edit.value); }
  }

  lemma MergedIsEdited(was: Json, edit: Edit)
    ensures Edited(was, MergePatch(was, JObject(PatchOf(edit))), Some(edit))
  {
  }

  /** Of the metadata, the two maps are edited and the rest is untouched. */
  lemma MetadataIsEdited(was: Json, labels: Option<Edit>, annotations: Option<Edit>)
    ensures var now := MergePatch(was, Sections(labels, annotations));
            && Edited(Member(was, "labels"), Member(now, "labels"), labels)
            && Edited(Member(was, "annotations"), Member(now, "annotations"), annotations)
            && forall other | other != "labels" && other != "annotations" :: Member(now, other) == Member(was, other)
  {
    SectionNames(labels, annotations);
    EditedSection(was, Sections(labels, annotations), "labels", labels);
    EditedSection(was, Sections(labels, annotations), "annotations", annotations);
    UntouchedMembers(was, Sections(labels, annotations));
  }

  lemma EditedReads(was: Json, now: Json, edit: Option<Edit>)
    requires Edited(was, now, edit)
    ensures StringMap(now) == Wanted(StringMap(was), edit)
  {
  }

  /** Of any object, the patch changes the two maps as the edits say and nothing else. */
  lemma PatchedObject(obj: Json, labels: Option<Edit>, annotations: Option<Edit>)
    ensures var patched := MergePatch(obj, PatchBody(labels, annotations));
            var was, now := Member(obj, "metadata"), Member(patched, "metadata");
            && Edited(Member(was, "labels"), Member(now, "labels"), labels)
            && Edited(Member(was, "annotations"), Member(now, "annotations"), annotations)
            && (forall other | other != "metadata" :: Member(patched, other) == Member(obj, other))
            && (forall other | other != "labels" && other != "annotations" :: Member(now, other) == Member(was, other))
            && LabelsOf(patched) == Wanted(LabelsOf(obj), labels)
            && AnnotationsOf(patched) == Wanted(AnnotationsOf(obj), annotations)
  {
    var meta := Member(obj, "metadata");
    PatchReachesMetadata(obj, labels, annotations);
    MetadataIsEdited(meta, labels, annotations);
    var now := MergePatch(meta, Sections(labels, annotations));
    EditedReads(Member(meta, "labels"), Member(now, "labels"), labels);
    EditedReads(Member(meta, "annotations"), Member(now, "annotations"), annotations);
  }

  // ---- the byte cap ----

  // Strings stand for byte strings here, so that a length is what Go's len counts.

  const MAX_ANNOTATIONS_BYTES := 256 * 1024

  ghost function Sizes(m: map<string, string>): map<string, int> {
    map k | k in m :: |k| + |m[k]|
  }

  /** Each entry counts its key and its value. */
  lemma EachEntryCounts(m: map<string, string>, k: string)
    requires k in m
    ensures Sums.Total(Sizes(m)) == Sums.Total(Sizes(m - {k})) + |k| + |m[k]|
    ensures Sums.Total(Sizes(map[])) == 0
  {
    Sums.AddAny(Sizes(m), k);
    assert Sizes(m) - {k} == Sizes(m - {k});
  }

  /** In whatever order the map is walked. */
  method TotalAnnotationsBytes(m: map<string, string>) returns (total: int)
    ensures total == Sums.Total(Sizes(m))
  {
    total := 0;
    var rest := m.Keys;
    assert (map k | k in rest :: Sizes(m)[k]) == Sizes(m);
    while rest != {}
      invariant rest <= m.Keys
      invariant total + Sums.Total(map k | k in rest :: Sizes(m)[k]) == Sums.Total(Sizes(m))
      decreases rest
    {
      var k :| k in rest;
      ghost var left := map q | q in rest :: Sizes(m)[q];
      Sums.AddAny(left, k);
      assert left - {k} == map q | q in rest - {k} :: Sizes(m)[q];
      total := total + (|k| + |m[k]|);
      rest := rest - {k};
    }
  }

  // ---- validation ----

  const MAX_LABEL_KEY_LEN := 253 + 1 + 63
  const MAX_LABEL_VALUE_LEN := 63

  /** The shapes a key and a label value must have. */
  datatype Rules = Rules(key: string -> bool, value: string -> bool)

  datatype Problem =
    | Conflict(key: string)
    | EmptyAddKey
    | KeyTooLong(key: string)
    | BadKey(key: string)
    | ValueTooLong(key: string)
    | BadValue(key: string)
    | EmptyRemoveKey

  predicate AddOk(k: string, v: string, rules: Rules, valueRules: bool) {
    k != "" && |k| <= MAX_LABEL_KEY_LEN && rules.key(k) && (valueRules ==> |v| <= MAX_LABEL_VALUE_LEN && rules.value(v))
  }

  predicate ValidEdit(edit: Edit, rules: Rules, valueRules: bool) {
    && (forall k | k in edit.remove :: k != "" && k !in edit.add)
    && (forall k | k in edit.add :: AddOk(k, edit.add[k], rules, valueRules))
  }

  method CheckAdd(k: string, v: string, rules: Rules, valueRules: bool) returns (problem: Option<Problem>)
    ensures problem.None? <==> AddOk(k, v, rules, valueRules)
  {
    if k == "" { return Some(EmptyAddKey); }
    if |k| > MAX_LABEL_KEY_LEN { return Some(KeyTooLong(k)); }
    if !rules.key(k) { return Some(BadKey(k)); }
    if valueRules {
      if |v| > MAX_LABEL_VALUE_LEN { return Some(ValueTooLong(k)); }
      if !rules.value(v) { return Some(BadValue(k)); }
    }
    return None;
  }

  method ValidateMetadataMap(edit: Edit, rules: Rules, valueRules: bool) returns (problem: Option<Problem>)
    ensures problem.None? <==> ValidEdit(edit, rules, valueRules)
    ensures problem.None? <==>
            && (forall k | k in edit.remove :: k != "" && k !in edit.add)
            && (forall k | k in edit.add :: k != "" && |k| <= 317 && rules.key(k))
            && (valueRules ==> forall k | k in edit.add :: |edit.add[k]| <= 63 && rules.value(edit.add[k]))
  {
    for i := 0 to |edit.remove|
      invariant forall j | 0 <= j < i :: edit.remove[j] !in edit.add
    {
      if edit.remove[i] in edit.add { return Some(Conflict(edit.remove[i])); }
    }
    var rest := edit.add.Keys;
    while rest != {}
      invariant rest <= edit.add.Keys
      invariant forall k | k in edit.add && k !in rest :: AddOk(k, edit.add[k], rules, valueRules)
      decreases rest
    {
      var k :| k in rest;
      var bad := CheckAdd(k, edit.add[k], rules, valueRules);
      if bad.Some? { return bad; }
      rest := rest - {k};
    }
    for i := 0 to |edit.remove|
      invariant forall j | 0 <= j < i :: edit.remove[j] != ""
    {
      assert edit.remove[i] in edit.remove;
      if edit.remove[i] == "" { return Some(EmptyRemoveKey); }
    }
    return None;
  }

  // ---- the diff ----

  datatype Diff = Diff(from: map<string, string>, to: map<string, string>,
                       added: seq<string>, updated: seq<string>, removed: seq<string>)

  ghost function Absent(m: map<string, string>, from: map<string, string>, seen: set<string>): set<string> {
    set k | k in m && k in seen && k !in from
  }

  ghost function Changed(m: map<string, string>, from: map<string, string>, seen: set<string>): set<string> {
    set k | k in m && k in seen && k in from && m[k] != from[k]
  }

  /** The three lists classify the keys, each key listed once. */
  ghost predicate Classifies(d: Diff) {
    && multiset(d.added) == multiset(Absent(d.to, d.from, d.to.Keys))
    && multiset(d.updated) == multiset(Changed(d.to, d.from, d.to.Keys))
    && multiset(d.removed) == multiset(Absent(d.from, d.to, d.from.Keys))
  }

  lemma SeenOneMore(m: map<string, string>, from: map<string, string>, seen: set<string>, k: string)
    requires k in m && k !in seen
    ensures multiset(Absent(m, from, seen + {k})) ==
            multiset(Absent(m, from, seen)) + if k !in from then multiset{k} else multiset{}
    ensures multiset(Changed(m, from, seen + {k})) ==
            multiset(Changed(m, from, seen)) + if k in from && m[k] != from[k] then multiset{k} else multiset{}
  {
  }

  /** The keys new in m or changed from `from`, in some order. */
  method Compare(m: map<string, string>, from: map<string, string>) returns (added: seq<string>, updated: seq<string>)
    ensures multiset(added) == multiset(Absent(m, from, m.Keys))
    ensures multiset(updated) == multiset(Changed(m, from, m.Keys))
  {
    added, updated := [], [];
    var rest := m.Keys;
    ghost var seen := {};
    while rest != {}
      invariant rest <= m.Keys && seen == m.Keys - rest
      invariant multiset(added) == multiset(Absent(m, from, seen))
      invariant multiset(updated) == multiset(Changed(m, from, seen))
      decreases rest
    {
      var k :| k in rest;
      SeenOneMore(m, from, seen, k);
      if k in from {
        if from[k] != m[k] { updated := updated + [k]; }
      } else {
        added := added + [k];
      }
      rest := rest - {k};
      seen := seen + {k};
    }
    assert seen == m.Keys;
  }

  method ComputeMapDiff(from: map<string, string>, to: map<string, string>) returns (d: Diff)
    ensures d.from == from && d.to == to && Classifies(d)
  {
    var added, updated := Compare(to, from);
    var removed: seq<string> := [];
    var rest := from.Keys;
    while rest != {}
      invariant rest <= from.Keys
      invariant multiset(removed) == multiset(Absent(from, to, from.Keys - rest))
      decreases rest
    {
      var k :| k in rest;
      SeenOneMore(from, to, from.Keys - rest, k);
      assert from.Keys - (rest - {k}) == (from.Keys - rest) + {k};
      if k !in to { removed := removed + [k]; }
      rest := rest - {k};
    }
    assert from.Keys - rest == from.Keys;
    d := Diff(from, to, added, updated, removed);
  }

  function SetAll(m: map<string, string>, keys: seq<string>, to: map<string, string>): map<string, string>
    requires forall k | k in keys :: k in to
    decreases keys
  {
    if keys == [] then m else SetAll(m[keys[0] := to[keys[0]]], keys[1..], to)
  }

  function DropAll(m: map<string, string>, keys: seq<string>): map<string, string>
    decreases keys
  {
    if keys == [] then m else DropAll(m - {keys[0]}, keys[1..])
  }

  lemma {:induction false} SetsEach(m: map<string, string>, keys: seq<string>, to: map<string, string>, k: string)
    requires forall x | x in keys :: x in to
    ensures var r := SetAll(m, keys, to);
            && (k in r <==> k in m || k in keys)
            && (k in r ==> r[k] == if k in keys then to[k] else m[k])
    decreases keys
  {
    if keys != [] {
      SetsEach(m[keys[0] := to[keys[0]]], keys[1..], to, k);
    }
  }

  lemma {:induction false} DropsEach(m: map<string, string>, keys: seq<string>, k: string)
    ensures var r := DropAll(m, keys); (k in r <==> k in m && k !in keys) && (k in r ==> r[k] == m[k])
    decreases keys
  {
    if keys != [] {
      DropsEach(m - {keys[0]}, keys[1..], k);
    }
  }

  lemma ListedAre(d: Diff)
    requires Classifies(d)
    ensures forall k :: k in d.added <==> k in d.to && k !in d.from
    ensures forall k :: k in d.updated <==> k in d.to && k in d.from && d.to[k] != d.from[k]
    ensures forall k :: k in d.removed <==> k in d.from && k !in d.to
  {
    forall k ensures k in d.added <==> k in d.to && k !in d.from { assert k in d.added <==> k in multiset(d.added); }
    forall k ensures k in d.updated <==> k in d.to && k in d.from && d.to[k] != d.from[k] {
      assert k in d.updated <==> k in multiset(d.updated);
    }
    forall k ensures k in d.removed <==> k in d.from && k !in d.to {
      assert k in d.removed <==> k in multiset(d.removed);
    }
  }

  /** The lists share no key, and playing them over the old map gives the new one. */
  lemma DiffReplays(d: Diff)
    requires Classifies(d)
    ensures forall k ::
              && !(k in d.added && k in d.updated) && !(k in d.added && k in d.removed)
              && !(k in d.updated && k in d.removed)
    ensures forall k | k in d.added + d.updated :: k in d.to
    ensures DropAll(SetAll(SetAll(d.from, d.added, d.to), d.updated, d.to), d.removed) == d.to
  {
    ListedAre(d);
    var a := SetAll(d.from, d.added, d.to);
    var b := SetAll(a, d.updated, d.to);
    var r := DropAll(b, d.removed);
    forall k ensures (k in r <==> k in d.to) && (k in d.to ==> r[k] == d.to[k]) {
      SetsEach(d.from, d.added, d.to, k);
      SetsEach(a, d.updated, d.to, k);
      DropsEach(b, d.removed, k);
    }
  }

  // ---- the handler ----

  datatype Reply =
    | NothingToDo
    | Invalid(problem: Problem)
    | TooLarge(size: int)
    | Patched(obj: Json, labels: Diff, annotations: Diff)

  predicate Empty(edit: Option<Edit>) { edit.None? || (edit.value.add == map[] && edit.value.remove == []) }

  /** The body of the patch, as the handler builds it. */
  method BuildMetadataPatch(labels: Option<Edit>, annotations: Option<Edit>) returns (body: Json)
    ensures body == PatchBody(labels, annotations)
  {
    var metadata: map<string, Json> := map[];
    assert "labels" != "annotations" by { assert "labels"[0] != "annotations"[0]; }
    if labels.Some? {
      var members := MergeAddRemove(labels.value);
      metadata := metadata["labels" := JObject(members)];
    }
    if annotations.Some? {
      var members := MergeAddRemove(annotations.value);
      metadata := metadata["annotations" := JObject(members)];
    }
    body := JObject(map["metadata" := JObject(metadata)]);
    assert metadata == Sections(labels, annotations).fields;
  }

  /** `seen` is the object as the pre-flight read found it, `live` the one the patch
      meets. An edit is refused for its shape, or exactly when the annotations it would
      leave of the object seen are over the cap; otherwise the patch makes the edit of
      the live object, and the diffs lead from the maps seen to the maps it left. */
  method EditMetadata(seen: Json, live: Json, labels: Option<Edit>, annotations: Option<Edit>, rules: Rules)
    returns (r: Reply)
    ensures r.NothingToDo? <==> Empty(labels) && Empty(annotations)
    ensures r.Invalid? <==> (!(Empty(labels) && Empty(annotations))
                             && !((labels.Some? ==> ValidEdit(labels.value, rules, true))
                                  && (annotations.Some? ==> ValidEdit(annotations.value, rules, false))))
    ensures var size := Sums.Total(Sizes(AnnotationsOf(MergePatch(seen, PatchBody(labels, annotations)))));
            && (r.TooLarge? ==> annotations.Some? && r.size == size > 262144)
            && (r.Patched? ==> annotations.None? || size <= 262144)
    ensures r.Patched? ==>
              var was, now := Member(live, "metadata"), Member(r.obj, "metadata");
              && Edited(Member(was, "labels"), Member(now, "labels"), labels)
              && Edited(Member(was, "annotations"), Member(now, "annotations"), annotations)
              && (forall other | other != "metadata" :: Member(r.obj, other) == Member(live, other))
              && (forall other | other != "labels" && other != "annotations" ::
                    Member(now, other) == Member(was, other))
    ensures r.Patched? ==>
              && r.obj == MergePatch(live, PatchBody(labels, annotations))
              && r.labels.from == LabelsOf(seen) && r.labels.to == Wanted(LabelsOf(live), labels)
              && r.annotations.from == AnnotationsOf(seen)
              && r.annotations.to == Wanted(AnnotationsOf(live), annotations)
              && Classifies(r.labels) && Classifies(r.annotations)
  {
    if Empty(labels) && Empty(annotations) { return NothingToDo; }
    if labels.Some? {
      var problem := ValidateMetadataMap(labels.value, rules, true);
      if problem.Some? { return Invalid(problem.value); }
    }
    if annotations.Some? {
      var problem := ValidateMetadataMap(annotations.value, rules, false);
      if problem.Some? { return Invalid(problem.value); }
    }
    PatchedObject(seen, labels, annotations);
    if annotations.Some? {
      var after := ApplyMapEdit(AnnotationsOf(seen), annotations);
      var size := TotalAnnotationsBytes(after);
      if size > MAX_ANNOTATIONS_BYTES { return TooLarge(size); }
    }
    var body := BuildMetadataPatch(labels, annotations);
    PatchedObject(live, labels, annotations);
    var patched := MergePatch(live, body);
    var labelDiff := ComputeMapDiff(LabelsOf(seen), LabelsOf(patched));
    var annotationDiff := ComputeMapDiff(AnnotationsOf(seen), AnnotationsOf(patched));
    r := Patched(patched, labelDiff, annotationDiff);
  }
}
