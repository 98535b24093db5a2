/**
 * The decisions `generate_admin` takes about one model, common/management/commands/generate_admin.py:
 * which fields go to `list_display`, `list_filter`, `raw_id_fields` and `search_fields`, which field
 * becomes `date_hierarchy`, and which `prepopulated_fields` entries are written. Django's model
 * introspection is replaced by an explicit list of field descriptors, each carrying the number of
 * rows of its related model.
 */
module AdminPlan {
  import opened Wrappers
  import opened Strings
  import opened Sequences

  // ---------------------------------------------------------------------------------------------
  // Fields and options

  /** The Django field classes the classifier tells apart; `OneToOneField` is a `ForeignKey`. */
  datatype FieldKind = DateField | DateTimeField | BooleanField | ForeignKey | OtherField

  /**
   * One entry of `model._meta.fields`. `isParentLink` says the field is among `meta.parents.values()`
   * (the link to a multi-table parent); `relatedCount` is the row count of the related model, read
   * only for foreign keys.
   */
  datatype Field = Field(name: string, kind: FieldKind, isParentLink: bool, relatedCount: nat)

  /** A model class: its `__name__` and its concrete fields in declaration order. */
  datatype ModelDecl = ModelDecl(name: string, fields: seq<Field>)

  /** The keyword arguments of `AdminModel.__init__`. */
  datatype Options = Options(
    rawIdThreshold: nat,
    dateHierarchyThreshold: int,
    listFilterThreshold: nat,
    searchFieldNames: seq<string>,
    dateHierarchyNames: seq<string>,
    prepopulatedFieldNames: seq<string>,
    noQueryDb: bool)

  const RawIdThreshold: nat := 100
  const DateHierarchyThreshold: int := 250
  const ListFilterThreshold: nat := 25
  const SearchFieldNames: seq<string> := ["name", "slug", "value"]
  const DateHierarchyNames: seq<string> := ["created", "modified"]
  const PrepopulatedFieldNames: seq<string> := ["slug=name"]

  /** The defaults `AdminModel` takes when constructed without options (`NO_QUERY_DB = True`). */
  const DefaultOptions: Options := Options(
    RawIdThreshold, DateHierarchyThreshold, ListFilterThreshold,
    SearchFieldNames, DateHierarchyNames, PrepopulatedFieldNames, true)

  /** `isinstance(field, LIST_FILTER)`: date, date-time, boolean and foreign-key fields. */
  predicate IsListFilterKind(kind: FieldKind) {
    kind != OtherField
  }

  // ---------------------------------------------------------------------------------------------
  // Foreign keys

  datatype FkPlacement = RawIdPlacement | ListFilterPlacement | NoPlacement

  function Max(a: int, b: int): int { if a >= b then a else b }
  function Min(a: int, b: int): int { if a <= b then a else b }

  /**
   * `_process_foreign_key`: the related rows are counted only up to the larger threshold
   * (`objects.all()[:max_count].count()`); at least `raw_id_threshold` of them makes a raw-id field,
   * fewer than `list_filter_threshold` a list filter, and otherwise the key goes nowhere. The cap
   * never changes the outcome: it is the one the uncapped count gives.
   */
  function ClassifyForeignKey(relatedCount: nat, rawIdThreshold: nat, listFilterThreshold: nat): (p: FkPlacement)
    ensures p == RawIdPlacement <==> relatedCount >= rawIdThreshold
    ensures p == ListFilterPlacement <==> relatedCount < rawIdThreshold && relatedCount < listFilterThreshold
  {
    var maxCount := Max(listFilterThreshold, rawIdThreshold);
    var counted := Min(relatedCount, maxCount);
    if counted >= rawIdThreshold then RawIdPlacement
    else if counted < listFilterThreshold then ListFilterPlacement
    else NoPlacement
  }

  // ---------------------------------------------------------------------------------------------
  // The four lists

  /** Where a field lands, stated on the field itself and the uncapped related count. */
  predicate InDisplay(f: Field) {
    !f.isParentLink
  }

  predicate InFilter(f: Field, o: Options) {
    && !f.isParentLink
    && IsListFilterKind(f.kind)
    && (f.kind != ForeignKey || o.noQueryDb
        || (f.relatedCount < o.rawIdThreshold && f.relatedCount < o.listFilterThreshold))
  }

  predicate InRawId(f: Field, o: Options) {
    !f.isParentLink && f.kind == ForeignKey && !o.noQueryDb && f.relatedCount >= o.rawIdThreshold
  }

  predicate InSearch(f: Field, o: Options) {
    !f.isParentLink && f.name in o.searchFieldNames
  }

  /** `list_display`, `list_filter`, `raw_id_fields` and `search_fields`. */
  datatype Lists = Lists(display: seq<string>, filter: seq<string>, rawId: seq<string>, search: seq<string>)
  {
    function Append(other: Lists): Lists {
      Lists(display + other.display, filter + other.filter, rawId + other.rawId, search + other.search)
    }
  }

  const NoLists := Lists([], [], [], [])

  /**
   * What `_process_field` appends for one field: a parent link adds nothing; any other field adds
   * its name to `list_display`, to `list_filter` or `raw_id_fields` (never both) as its kind and
   * related count say, and to `search_fields` when its name is a search field name.
   */
  function FieldLists(f: Field, o: Options): (l: Lists)
    ensures l.display == (if InDisplay(f) then [f.name] else [])
    ensures l.filter == (if InFilter(f, o) then [f.name] else [])
    ensures l.rawId == (if InRawId(f, o) then [f.name] else [])
    ensures l.search == (if InSearch(f, o) then [f.name] else [])
    ensures !(InFilter(f, o) && InRawId(f, o))
  {
    if f.isParentLink then NoLists
    else
      var queryDb := !o.noQueryDb;
      var filterAndRawId :=
        if IsListFilterKind(f.kind) then
          if f.kind == ForeignKey && queryDb then
            match ClassifyForeignKey(f.relatedCount, o.rawIdThreshold, o.listFilterThreshold)
            case RawIdPlacement => ([], [f.name])
            case ListFilterPlacement => ([f.name], [])
            case NoPlacement => ([], [])
          else ([f.name], [])
        else ([], []);
      var search := if f.name in o.searchFieldNames then [f.name] else [];
      Lists([f.name], filterAndRawId.0, filterAndRawId.1, search)
  }

  /** The lists after `_process_field` has run on every field, in declaration order. */
  function PlanLists(fs: seq<Field>, o: Options): Lists
  {
    if fs == [] then NoLists
    else PlanLists(fs[..|fs| - 1], o).Append(FieldLists(fs[|fs| - 1], o))
  }

  /** `[f.name for f in fs if p(f)]`. */
  function NamesWhere(fs: seq<Field>, p: Field -> bool): seq<string>
  {
    if fs == [] then []
    else NamesWhere(fs[..|fs| - 1], p) + (if p(fs[|fs| - 1]) then [fs[|fs| - 1].name] else [])
  }

  /** Two tests that agree on every field keep the same names. */
  lemma {:induction false} NamesWhereSame(fs: seq<Field>, p: Field -> bool, q: Field -> bool)
    requires forall f :: p(f) == q(f)
    ensures NamesWhere(fs, p) == NamesWhere(fs, q)
    decreases |fs|
  {
    if fs != [] {
      NamesWhereSame(fs[..|fs| - 1], p, q);
    }
  }

  /** A name is listed exactly when some field with that name passes the test. */
  lemma {:induction false} NamesWhereMembers(fs: seq<Field>, p: Field -> bool, x: string)
    ensures x in NamesWhere(fs, p) <==> exists i :: 0 <= i < |fs| && p(fs[i]) && fs[i].name == x
    decreases |fs|
  {
    if fs != [] {
      var init := fs[..|fs| - 1];
      NamesWhereMembers(init, p, x);
      if exists i :: 0 <= i < |fs| && p(fs[i]) && fs[i].name == x {
        var i :| 0 <= i < |fs| && p(fs[i]) && fs[i].name == x;
        if i < |init| {
          assert init[i] == fs[i];
        }
      }
      if exists i :: 0 <= i < |init| && p(init[i]) && init[i].name == x {
        var i :| 0 <= i < |init| && p(init[i]) && init[i].name == x;
        assert fs[i] == init[i];
      }
    }
  }

  /** A stricter test keeps a subsequence of the names a looser one keeps. */
  lemma {:induction false} NamesWhereSubseq(fs: seq<Field>, p: Field -> bool, q: Field -> bool)
    requires forall f :: p(f) ==> q(f)
    ensures Subseq(NamesWhere(fs, p), NamesWhere(fs, q))
    decreases |fs|
  {
    if fs == [] {
      SubseqEmpty<string>([]);
    } else {
      var init := fs[..|fs| - 1];
      var last := fs[|fs| - 1];
      var pn, qn := NamesWhere(init, p), NamesWhere(init, q);
      NamesWhereSubseq(init, p, q);
      assert pn + [] == pn && qn + [] == qn;
      if q(last) {
        SubseqExtend(pn, qn, last.name);
      }
    }
  }

  /** Adding a name test to a field test is filtering the names by that test. */
  lemma {:induction false} NamesWhereKeepIn(fs: seq<Field>, p: Field -> bool, q: Field -> bool, keep: seq<string>)
    requires forall f :: q(f) <==> p(f) && f.name in keep
    ensures NamesWhere(fs, q) == KeepIn(NamesWhere(fs, p), keep)
    decreases |fs|
  {
    if fs != [] {
      var init := fs[..|fs| - 1];
      NamesWhereKeepIn(init, p, q, keep);
      var last := fs[|fs| - 1];
      var pn, qn := NamesWhere(init, p), NamesWhere(init, q);
      assert pn + [] == pn && qn + [] == qn;
      if p(last) {
        assert NamesWhere(fs, p) == pn + [last.name];
        assert (pn + [last.name])[..|pn|] == pn;
      }
    }
  }

  lemma {:induction false} PlanDisplay(fs: seq<Field>, o: Options)
    ensures PlanLists(fs, o).display == NamesWhere(fs, InDisplay)
    decreases |fs|
  {
    if fs != [] {
      PlanDisplay(fs[..|fs| - 1], o);
    }
  }

  lemma {:induction false} PlanFilter(fs: seq<Field>, o: Options)
    ensures PlanLists(fs, o).filter == NamesWhere(fs, (f: Field) => InFilter(f, o))
    decreases |fs|
  {
    if fs != [] {
      PlanFilter(fs[..|fs| - 1], o);
    }
  }

  lemma {:induction false} PlanRawId(fs: seq<Field>, o: Options)
    ensures PlanLists(fs, o).rawId == NamesWhere(fs, (f: Field) => InRawId(f, o))
    decreases |fs|
  {
    if fs != [] {
      PlanRawId(fs[..|fs| - 1], o);
    }
  }

  lemma {:induction false} PlanSearch(fs: seq<Field>, o: Options)
    ensures PlanLists(fs, o).search == NamesWhere(fs, (f: Field) => InSearch(f, o))
    decreases |fs|
  {
    if fs != [] {
      PlanSearch(fs[..|fs| - 1], o);
    }
  }

  /**
   * Every field that is not a parent link is listed in `list_display`, in declaration order, and
   * nothing else is.
   */
  lemma DisplayIsNonParentFields(fs: seq<Field>, o: Options, x: string)
    ensures PlanLists(fs, o).display == NamesWhere(fs, (f: Field) => !f.isParentLink)
    ensures x in PlanLists(fs, o).display <==> exists i :: 0 <= i < |fs| && !fs[i].isParentLink && fs[i].name == x
  {
    PlanDisplay(fs, o);
    NamesWhereSame(fs, InDisplay, (f: Field) => !f.isParentLink);
    NamesWhereMembers(fs, InDisplay, x);
  }

  /**
   * `list_filter`, `raw_id_fields` and `search_fields` are subsequences of `list_display`, and
   * `search_fields` is exactly the displayed names that are search field names.
   */
  lemma ListsWithinDisplay(fs: seq<Field>, o: Options)
    ensures var l := PlanLists(fs, o);
      Subseq(l.filter, l.display) && Subseq(l.rawId, l.display) && Subseq(l.search, l.display)
      && l.search == KeepIn(l.display, o.searchFieldNames)
  {
    PlanDisplay(fs, o);
    PlanFilter(fs, o);
    PlanRawId(fs, o);
    PlanSearch(fs, o);
    NamesWhereSubseq(fs, (f: Field) => InFilter(f, o), InDisplay);
    NamesWhereSubseq(fs, (f: Field) => InRawId(f, o), InDisplay);
    NamesWhereSubseq(fs, (f: Field) => InSearch(f, o), InDisplay);
    NamesWhereKeepIn(fs, InDisplay, (f: Field) => InSearch(f, o), o.searchFieldNames);
  }

  /**
   * Without database queries every date, date-time, boolean and foreign-key field goes to
   * `list_filter`, no other field does, and `raw_id_fields` stays empty.
   */
  lemma NoQueryDbFilter(fs: seq<Field>, o: Options)
    requires o.noQueryDb
    ensures PlanLists(fs, o).filter == NamesWhere(fs, (f: Field) => !f.isParentLink && f.kind != OtherField)
    ensures PlanLists(fs, o).rawId == []
  {
    PlanFilter(fs, o);
    PlanRawId(fs, o);
    NamesWhereSame(fs, (f: Field) => InFilter(f, o), (f: Field) => !f.isParentLink && f.kind != OtherField);
    NoneWhere(fs, (f: Field) => InRawId(f, o));
  }

  lemma {:induction false} NoneWhere(fs: seq<Field>, p: Field -> bool)
    requires forall i :: 0 <= i < |fs| ==> !p(fs[i])
    ensures NamesWhere(fs, p) == []
    decreases |fs|
  {
    if fs != [] {
      var init := fs[..|fs| - 1];
      assert forall i :: 0 <= i < |init| ==> init[i] == fs[i];
      NoneWhere(init, p);
    }
  }

  /**
   * With database queries a foreign key lands in `raw_id_fields` when its related model has at
   * least `raw_id_threshold` rows and in `list_filter` when it has fewer than both thresholds.
   */
  lemma QueryDbPlacement(fs: seq<Field>, o: Options)
    requires !o.noQueryDb
    ensures PlanLists(fs, o).rawId
      == NamesWhere(fs, (f: Field) => !f.isParentLink && f.kind == ForeignKey && f.relatedCount >= o.rawIdThreshold)
    ensures PlanLists(fs, o).filter
      == NamesWhere(fs, (f: Field) => !f.isParentLink && f.kind != OtherField
           && (f.kind == ForeignKey ==> f.relatedCount < o.rawIdThreshold && f.relatedCount < o.listFilterThreshold))
  {
    PlanFilter(fs, o);
    PlanRawId(fs, o);
    NamesWhereSame(fs, (f: Field) => InRawId(f, o),
      (f: Field) => !f.isParentLink && f.kind == ForeignKey && f.relatedCount >= o.rawIdThreshold);
    NamesWhereSame(fs, (f: Field) => InFilter(f, o),
      (f: Field) => !f.isParentLink && f.kind != OtherField
        && (f.kind == ForeignKey ==> f.relatedCount < o.rawIdThreshold && f.relatedCount < o.listFilterThreshold));
  }

  /** The names `_process_fields` yields: those of the non-parent fields, when the name is not empty. */
  function ProcessedNames(fs: seq<Field>): seq<string>
  {
    NamesWhere(fs, (f: Field) => !f.isParentLink && f.name != [])
  }

  /** `_process_fields` yields the name of every non-parent field whose name is not empty, and only those. */
  lemma ProcessedNamesMembers(fs: seq<Field>, x: string)
    ensures x in ProcessedNames(fs) <==> x != [] && exists i :: 0 <= i < |fs| && !fs[i].isParentLink && fs[i].name == x
  {
    NamesWhereMembers(fs, (f: Field) => !f.isParentLink && f.name != [], x);
  }

  // ---------------------------------------------------------------------------------------------
  // date_hierarchy

  /** The last of `names` that occurs in `present`, or None when none does. */
  function LastPresent(names: seq<string>, present: seq<string>): Option<string>
  {
    if names == [] then None
    else if names[|names| - 1] in present then Some(names[|names| - 1])
    else LastPresent(names[..|names| - 1], present)
  }

  /**
   * `LastPresent` is None exactly when no name is present; otherwise it is a present name at some
   * position after which no name is present.
   */
  lemma LastPresentSpec(names: seq<string>, present: seq<string>)
    ensures var r := LastPresent(names, present);
      && (r.None? <==> forall i :: 0 <= i < |names| ==> names[i] !in present)
      && (r.Some? ==> exists i ::
            && 0 <= i < |names| && names[i] == r.value && r.value in present
            && forall j :: i < j < |names| ==> names[j] !in present)
  {
    LastPresentNone(names, present);
    if LastPresent(names, present).Some? {
      LastPresentSome(names, present);
      var i :| PresentLastAt(names, present, i) && names[i] == LastPresent(names, present).value;
    }
  }

  lemma {:induction false} LastPresentNone(names: seq<string>, present: seq<string>)
    ensures LastPresent(names, present).None? <==> forall i :: 0 <= i < |names| ==> names[i] !in present
    decreases |names|
  {
    if names != [] && names[|names| - 1] !in present {
      var init := names[..|names| - 1];
      LastPresentNone(init, present);
      assert forall i :: 0 <= i < |init| ==> init[i] == names[i];
    }
  }

  /** `names[i]` is present and no later name is. */
  predicate PresentLastAt(names: seq<string>, present: seq<string>, i: int) {
    0 <= i < |names| && names[i] in present && forall j :: i < j < |names| ==> names[j] !in present
  }

  lemma {:induction false} LastPresentSome(names: seq<string>, present: seq<string>)
    requires LastPresent(names, present).Some?
    ensures exists i :: PresentLastAt(names, present, i) && names[i] == LastPresent(names, present).value
    decreases |names|
  {
    var n := |names|;
    if names[n - 1] in present {
      assert PresentLastAt(names, present, n - 1);
    } else {
      var init := names[..n - 1];
      LastPresentSome(init, present);
      var i :| PresentLastAt(init, present, i) && init[i] == LastPresent(init, present).value;
      PresentLastAtExtend(init, present, i, names[n - 1]);
      assert names == init + [names[n - 1]];
    }
  }

  /** A name that is not present, put at the end, keeps the last present one where it was. */
  lemma PresentLastAtExtend(init: seq<string>, present: seq<string>, i: int, x: string)
    requires PresentLastAt(init, present, i) && x !in present
    ensures PresentLastAt(init + [x], present, i) && (init + [x])[i] == init[i]
  {
    var names := init + [x];
    forall j | i < j < |names| ensures names[j] !in present {
      if j < |init| {
        assert names[j] == init[j];
      }
    }
  }

  /** Python truthiness of the `date_hierarchy` attribute: set and not the empty string. */
  predicate Truthy(v: Option<string>) {
    v.Some? && v.value != []
  }

  /**
   * The loop over `date_hierarchy_names[::-1]`: an attribute that is already truthy is kept;
   * otherwise the last name that is a processed field name is taken, and without one the attribute
   * is left as it was.
   */
  function NextDateHierarchy(current: Option<string>, names: seq<string>, fieldNames: seq<string>): (r: Option<string>)
    ensures Truthy(current) ==> r == current
    ensures !Truthy(current) && (exists i :: 0 <= i < |names| && names[i] in fieldNames) ==>
      r.Some? && r.value in names && r.value in fieldNames
    ensures !Truthy(current) && (exists i :: 0 <= i < |names| && names[i] in fieldNames) ==>
      exists i :: PresentLastAt(names, fieldNames, i) && r == Some(names[i])
    ensures (forall i :: 0 <= i < |names| ==> names[i] !in fieldNames) ==> r == current
  {
    LastPresentSpec(names, fieldNames);
    if Truthy(current) then current
    else
      match LastPresent(names, fieldNames)
      case Some(n) => LastPresentSome(names, fieldNames); Some(n)
      case None => current
  }

  /** With the default names, a model with both `created` and `modified` gets `modified`. */
  lemma DefaultDateHierarchyPrefersModified(fieldNames: seq<string>)
    requires "created" in fieldNames && "modified" in fieldNames
    ensures LastPresent(DateHierarchyNames, fieldNames) == Some("modified")
  {
    assert DateHierarchyNames[1] == "modified";
  }

  // ---------------------------------------------------------------------------------------------
  // prepopulated_fields

  /** A Python dict from field name to list of field names, in insertion order. */
  type Prepopulated = seq<(string, seq<string>)>

  function Keys(pf: Prepopulated): (ks: seq<string>)
    ensures |ks| == |pf| && forall i :: 0 <= i < |pf| ==> ks[i] == pf[i].0
  {
    if pf == [] then [] else [pf[0].0] + Keys(pf[1..])
  }

  predicate NoDuplicateKeys(pf: Prepopulated) {
    forall i, j :: 0 <= i < j < |pf| ==> pf[i].0 != pf[j].0
  }

  /** The position of the key `k` in the dict, or the dict's size when `k` is not a key. */
  function KeyIndex(pf: Prepopulated, k: string): (i: nat)
    ensures i <= |pf|
    ensures forall j :: 0 <= j < i ==> pf[j].0 != k
    ensures i < |pf| ==> pf[i].0 == k
    decreases |pf|
  {
    if pf == [] then 0
    else if pf[0].0 == k then 0
    else
      var i := KeyIndex(pf[1..], k);
      assert forall j :: 0 < j < i + 1 ==> pf[j] == pf[1..][j - 1];
      i + 1
  }

  /** The first index holding `k` is the one `KeyIndex` finds. */
  lemma KeyIndexAt(pf: Prepopulated, k: string, i: nat)
    requires i <= |pf| && forall j :: 0 <= j < i ==> pf[j].0 != k
    requires i < |pf| ==> pf[i].0 == k
    ensures KeyIndex(pf, k) == i
  {
    var m := KeyIndex(pf, k);
  }

  /** `pf.get(k)`. */
  function Lookup(pf: Prepopulated, k: string): (r: Option<seq<string>>)
    ensures r.None? <==> k !in Keys(pf)
    ensures r.Some? ==> (k, r.value) in pf
  {
    var i := KeyIndex(pf, k);
    if i < |pf| then
      assert Keys(pf)[i] == k;
      assert pf[i] == (k, pf[i].1);
      Some(pf[i].1)
    else
      assert forall j :: 0 <= j < |pf| ==> Keys(pf)[j] != k;
      None
  }

  /** `pf[k] = v`: an existing key keeps its position and takes the new value, a new key goes last. */
  function Put(pf: Prepopulated, k: string, v: seq<string>): (r: Prepopulated)
    ensures |r| == if KeyIndex(pf, k) < |pf| then |pf| else |pf| + 1
  {
    var i := KeyIndex(pf, k);
    if i < |pf| then pf[i := (k, v)] else pf + [(k, v)]
  }

  /** After `pf[k] = v`, `k` maps to `v`, no other key changes, and a new key is the last one. */
  lemma PutSpec(pf: Prepopulated, k: string, v: seq<string>)
    ensures Lookup(Put(pf, k, v), k) == Some(v)
    ensures forall k' :: k' != k ==> Lookup(Put(pf, k, v), k') == Lookup(pf, k')
    ensures Keys(Put(pf, k, v)) == if k in Keys(pf) then Keys(pf) else Keys(pf) + [k]
  {
    PutLookup(pf, k, v);
    PutKeys(pf, k, v);
    forall k' | k' != k
      ensures Lookup(Put(pf, k, v), k') == Lookup(pf, k')
    {
      PutOther(pf, k, v, k');
    }
  }

  lemma PutLookup(pf: Prepopulated, k: string, v: seq<string>)
    ensures Lookup(Put(pf, k, v), k) == Some(v)
  {
    KeyIndexAt(Put(pf, k, v), k, KeyIndex(pf, k));
  }

  lemma PutKeys(pf: Prepopulated, k: string, v: seq<string>)
    ensures Keys(Put(pf, k, v)) == if k in Keys(pf) then Keys(pf) else Keys(pf) + [k]
  {
    var i := KeyIndex(pf, k);
    var r := Put(pf, k, v);
    if i < |pf| {
      assert Keys(pf)[i] == k;
      assert Keys(r) == Keys(pf);
    } else {
      assert forall j :: 0 <= j < |pf| ==> Keys(pf)[j] != k;
      assert Keys(r) == Keys(pf) + [k];
    }
  }

  lemma PutOther(pf: Prepopulated, k: string, v: seq<string>, k': string)
    requires k' != k
    ensures Lookup(Put(pf, k, v), k') == Lookup(pf, k')
  {
    var r := Put(pf, k, v);
    var m := KeyIndex(pf, k');
    if m < |pf| {
      KeyIndexAt(r, k', m);
      assert r[m] == pf[m];
    } else {
      KeyIndexAt(r, k', |r|);
    }
  }

  /** Keys are unique in a dict: `Put` keeps them so. */
  lemma PutNoDuplicates(pf: Prepopulated, k: string, v: seq<string>)
    requires NoDuplicateKeys(pf)
    ensures NoDuplicateKeys(Put(pf, k, v))
  {
    var r := Put(pf, k, v);
    var i := KeyIndex(pf, k);
    if i == |pf| {
      forall a, b | 0 <= a < b < |r| ensures r[a].0 != r[b].0 {
        if b == |pf| {
          assert r[a] == pf[a];
        }
      }
    }
  }

  /**
   * `k, vs = spec.split("=", 1); vs = vs.split(",")`: None when the spec has no `=`, which makes the
   * unpacking raise.
   */
  function ParseSpec(spec: string): (r: Option<(string, seq<string>)>)
    ensures r.None? <==> '=' !in spec
    ensures r.Some? ==> '=' !in r.value.0 && spec == r.value.0 + "=" + Join(r.value.1, ",")
    ensures r.Some? ==> |r.value.1| > 0 && forall v :: v in r.value.1 ==> ',' !in v
  {
    match SplitOnce(spec, '=')
    case None => None
    case Some((k, rest)) =>
      JoinSplit(rest, ',');
      SplitPieces(rest, ',');
      Some((k, Split(rest, ',')))
  }

  /** The spec names a processed field and every field it is filled from is processed too. */
  predicate Complete(k: string, vs: seq<string>, fieldNames: seq<string>) {
    k in fieldNames && forall v :: v in vs ==> v in fieldNames
  }

  /** The dict after the prepopulated loop, and the spec that raised, when one did. */
  datatype SpecsOutcome = SpecsOutcome(fields: Prepopulated, malformed: Option<string>)

  /**
   * The loop `for k in specs` of `_process`: complete specs are written into the dict, the others
   * skipped, and the first spec without `=` stops the loop with the dict as it stands.
   */
  function ApplySpecs(pf: Prepopulated, specs: seq<string>, fieldNames: seq<string>): (r: SpecsOutcome)
    decreases |specs|
  {
    if specs == [] then SpecsOutcome(pf, None)
    else
      match ParseSpec(specs[0])
      case None => SpecsOutcome(pf, Some(specs[0]))
      case Some((k, vs)) =>
        var next := if Complete(k, vs, fieldNames) then Put(pf, k, vs) else pf;
        ApplySpecs(next, specs[1..], fieldNames)
  }

  /**
   * A spec without `=` raises: the loop reports a malformed spec exactly when one exists, and it is
   * the first of them.
   */
  lemma {:induction false} ApplySpecsMalformed(pf: Prepopulated, specs: seq<string>, fieldNames: seq<string>)
    ensures var r := ApplySpecs(pf, specs, fieldNames);
      && (r.malformed.None? <==> forall i :: 0 <= i < |specs| ==> '=' in specs[i])
      && (r.malformed.Some? ==> exists i ::
            && 0 <= i < |specs| && specs[i] == r.malformed.value
            && '=' !in specs[i] && forall j :: 0 <= j < i ==> '=' in specs[j])
    decreases |specs|
  {
    if specs != [] {
      match ParseSpec(specs[0])
      case None =>
      case Some((k, vs)) =>
        var next := if Complete(k, vs, fieldNames) then Put(pf, k, vs) else pf;
        ApplySpecsMalformed(next, specs[1..], fieldNames);
        var r := ApplySpecs(next, specs[1..], fieldNames);
        assert forall i :: 0 < i < |specs| ==> specs[i] == specs[1..][i - 1];
        if r.malformed.Some? {
          var i :| 0 <= i < |specs[1..]| && specs[1..][i] == r.malformed.value
            && '=' !in specs[1..][i] && forall j :: 0 <= j < i ==> '=' in specs[1..][j];
          assert specs[i + 1] == r.malformed.value;
          forall j | 0 <= j < i + 1 ensures '=' in specs[j] {
            if j > 0 {
              assert specs[j] == specs[1..][j - 1];
            }
          }
        }
    }
  }

  /** Every entry of a dict is a complete spec. */
  predicate AllComplete(pf: Prepopulated, fieldNames: seq<string>) {
    forall i :: 0 <= i < |pf| ==> Complete(pf[i].0, pf[i].1, fieldNames)
  }

  /**
   * Only complete specs are written: a dict whose entries are all complete stays so, and it stays
   * free of duplicate keys.
   */
  lemma {:induction false} ApplySpecsSound(pf: Prepopulated, specs: seq<string>, fieldNames: seq<string>)
    requires AllComplete(pf, fieldNames) && NoDuplicateKeys(pf)
    ensures AllComplete(ApplySpecs(pf, specs, fieldNames).fields, fieldNames)
    ensures NoDuplicateKeys(ApplySpecs(pf, specs, fieldNames).fields)
    decreases |specs|
  {
    if specs != [] {
      match ParseSpec(specs[0])
      case None =>
      case Some((k, vs)) =>
        if Complete(k, vs, fieldNames) {
          var next := Put(pf, k, vs);
          forall i | 0 <= i < |next| ensures Complete(next[i].0, next[i].1, fieldNames) {
            if next[i].0 == k {
              PutEntry(pf, k, vs, i);
            } else {
              PutEntryOther(pf, k, vs, i);
            }
          }
          PutNoDuplicates(pf, k, vs);
          ApplySpecsSound(next, specs[1..], fieldNames);
        } else {
          ApplySpecsSound(pf, specs[1..], fieldNames);
        }
    }
  }

  /** In a dict without duplicate keys, the entry holding `k` carries the value `Lookup` gives. */
  lemma LookupAt(pf: Prepopulated, i: nat)
    requires NoDuplicateKeys(pf) && i < |pf|
    ensures Lookup(pf, pf[i].0) == Some(pf[i].1)
  {
    KeyIndexAt(pf, pf[i].0, i);
  }

  /** In a dict without duplicate keys, the entry `pf[k] = vs` leaves under `k` is `vs`. */
  lemma PutEntry(pf: Prepopulated, k: string, vs: seq<string>, i: nat)
    requires NoDuplicateKeys(pf) && i < |Put(pf, k, vs)| && Put(pf, k, vs)[i].0 == k
    ensures Put(pf, k, vs)[i].1 == vs
  {
  }

  /** Every other entry after `pf[k] = vs` was already in the dict. */
  lemma PutEntryOther(pf: Prepopulated, k: string, vs: seq<string>, i: nat)
    requires i < |Put(pf, k, vs)| && Put(pf, k, vs)[i].0 != k
    ensures Put(pf, k, vs)[i] in pf
  {
    assert i < |pf| && Put(pf, k, vs)[i] == pf[i];
  }

  /** The value the last complete spec for `k` gives it, if any spec for `k` is complete. */
  function LastComplete(specs: seq<string>, k: string, fieldNames: seq<string>): Option<seq<string>>
  {
    if specs == [] then None
    else
      var last := ParseSpec(specs[|specs| - 1]);
      if last.Some? && last.value.0 == k && Complete(k, last.value.1, fieldNames) then Some(last.value.1)
      else LastComplete(specs[..|specs| - 1], k, fieldNames)
  }

  lemma {:induction false} LastCompleteCons(specs: seq<string>, k: string, fieldNames: seq<string>)
    requires specs != []
    ensures LastComplete(specs, k, fieldNames)
      == match LastComplete(specs[1..], k, fieldNames)
         case Some(v) => Some(v)
         case None => LastComplete(specs[..1], k, fieldNames)
    decreases |specs|
  {
    if |specs| > 1 {
      var init := specs[..|specs| - 1];
      assert specs[1..][..|specs[1..]| - 1] == init[1..];
      assert init[..1] == specs[..1];
      assert specs[1..][|specs[1..]| - 1] == specs[|specs| - 1];
      LastCompleteCons(init, k, fieldNames);
    }
  }

  /**
   * A later spec for the same key overwrites an earlier one: once no spec is malformed, each key of
   * the dict holds the value of the last complete spec for it, or its earlier value when there is none.
   */
  lemma {:induction false} LastSpecWins(pf: Prepopulated, specs: seq<string>, fieldNames: seq<string>, k: string)
    requires ApplySpecs(pf, specs, fieldNames).malformed.None?
    ensures Lookup(ApplySpecs(pf, specs, fieldNames).fields, k)
      == match LastComplete(specs, k, fieldNames)
         case Some(v) => Some(v)
         case None => Lookup(pf, k)
    decreases |specs|
  {
    if specs != [] {
      match ParseSpec(specs[0])
      case None =>
      case Some((k0, vs)) =>
        var next := if Complete(k0, vs, fieldNames) then Put(pf, k0, vs) else pf;
        LastSpecWins(next, specs[1..], fieldNames, k);
        LastCompleteCons(specs, k, fieldNames);
        LastCompleteFirst(specs, k, fieldNames);
        if Complete(k0, vs, fieldNames) {
          if k0 == k {
            PutLookup(pf, k, vs);
          } else {
            PutOther(pf, k0, vs, k);
          }
        }
    }
  }

  /** The last complete spec among the first one only: that spec, when it is complete for `k`. */
  lemma LastCompleteFirst(specs: seq<string>, k: string, fieldNames: seq<string>)
    requires specs != []
    ensures var p := ParseSpec(specs[0]);
      LastComplete(specs[..1], k, fieldNames)
      == if p.Some? && p.value.0 == k && Complete(k, p.value.1, fieldNames) then Some(p.value.1) else None
  {
    var first := specs[..1];
    assert first[|first| - 1] == specs[0] && first[..|first| - 1] == [];
    assert LastComplete(first[..|first| - 1], k, fieldNames) == None;
  }

  // ---------------------------------------------------------------------------------------------
  // The whole plan

  /** The printable attributes of an `AdminModel`. */
  datatype Plan = Plan(lists: Lists, prepopulated: Prepopulated, dateHierarchy: Option<string>)

  /** The attributes `AdminModel.__init__` sets: empty lists, an empty dict, no date hierarchy. */
  const InitialPlan := Plan(NoLists, [], None)

  /** The attributes after one `_process`, and the spec without `=` that made it raise, if any. */
  datatype ProcessOutcome = ProcessOutcome(plan: Plan, malformed: Option<string>)

  /**
   * `_process` from the attributes `before`: the fields are processed, then `date_hierarchy` is
   * chosen, then the prepopulated specs are applied in sorted order.
   */
  function Processed(before: Plan, fs: seq<Field>, o: Options): ProcessOutcome {
    var names := ProcessedNames(fs);
    var lists := before.lists.Append(PlanLists(fs, o));
    var dateHierarchy := NextDateHierarchy(before.dateHierarchy, o.dateHierarchyNames, names);
    var specs := ApplySpecs(before.prepopulated, SortStrings(o.prepopulatedFieldNames), names);
    ProcessOutcome(Plan(lists, specs.fields, dateHierarchy), specs.malformed)
  }

  /**
   * On a fresh `AdminModel`, `_process` leaves only complete entries in `prepopulated_fields`, each
   * key at most once; it raises exactly when some spec has no `=`; and `date_hierarchy` is the last
   * of the date-hierarchy names that is a processed field name.
   */
  lemma ProcessedFresh(fs: seq<Field>, o: Options)
    ensures var out := Processed(InitialPlan, fs, o);
      && PlanLists(fs, o) == out.plan.lists
      && AllComplete(out.plan.prepopulated, ProcessedNames(fs))
      && NoDuplicateKeys(out.plan.prepopulated)
      && (out.malformed.None? <==> forall i :: 0 <= i < |o.prepopulatedFieldNames| ==> '=' in o.prepopulatedFieldNames[i])
      && out.plan.dateHierarchy == LastPresent(o.dateHierarchyNames, ProcessedNames(fs))
  {
    var names := ProcessedNames(fs);
    var sorted := SortStrings(o.prepopulatedFieldNames);
    var applied := ApplySpecs([], sorted, names);
    var dh := NextDateHierarchy(None, o.dateHierarchyNames, names);
    assert Processed(InitialPlan, fs, o)
      == ProcessOutcome(Plan(NoLists.Append(PlanLists(fs, o)), applied.fields, dh), applied.malformed);
    ApplySpecsSound([], sorted, names);
    ApplySpecsMalformed([], sorted, names);
    SortedKeepsSeparators(o.prepopulatedFieldNames);
    NoListsAppend(PlanLists(fs, o));
  }

  lemma NoListsAppend(l: Lists)
    ensures NoLists.Append(l) == l
  {
    assert [] + l.display == l.display && [] + l.filter == l.filter;
    assert [] + l.rawId == l.rawId && [] + l.search == l.search;
  }

  /** Every spec holds an `=`. */
  predicate AllSeparated(specs: seq<string>) {
    forall i :: 0 <= i < |specs| ==> '=' in specs[i]
  }

  /** Every spec holds an `=` exactly when every sorted spec does. */
  lemma SortedKeepsSeparators(xs: seq<string>)
    ensures AllSeparated(xs) <==> AllSeparated(SortStrings(xs))
  {
    var sorted := SortStrings(xs);
    SortedSameElements(xs);
    SeparatorsCarryOver(xs, sorted);
    SeparatorsCarryOver(sorted, xs);
  }

  /** When every element of `b` occurs in `a`, an `=` in every string of `a` means one in every string of `b`. */
  lemma SeparatorsCarryOver(a: seq<string>, b: seq<string>)
    requires forall i :: 0 <= i < |b| ==> b[i] in a
    ensures AllSeparated(a) ==> AllSeparated(b)
  {
    if AllSeparated(a) {
      forall i | 0 <= i < |b| ensures '=' in b[i] {
        var j :| 0 <= j < |a| && a[j] == b[i];
      }
    }
  }

  /** `sorted` keeps every element and adds none. */
  lemma SortedSameElements(xs: seq<string>)
    ensures forall i :: 0 <= i < |xs| ==> xs[i] in SortStrings(xs)
    ensures forall i :: 0 <= i < |SortStrings(xs)| ==> SortStrings(xs)[i] in xs
  {
    var sorted := SortStrings(xs);
    forall i | 0 <= i < |xs| ensures xs[i] in sorted {
      assert xs[i] in multiset(xs);
    }
    forall i | 0 <= i < |sorted| ensures sorted[i] in xs {
      assert sorted[i] in multiset(sorted);
    }
  }

  // ---------------------------------------------------------------------------------------------
  // get_all_fields

  /** The classes of `model._meta.get_fields()` entries that matter to `get_all_fields`. */
  datatype MetaKind = ConcreteField | ManyToManyField | ManyToOneRel | OneToOneRel | ManyToManyRel

  datatype MetaField = MetaField(name: string, kind: MetaKind)

  /** `isinstance(field, (ManyToOneRel, ManyToManyField))`; a `OneToOneRel` is a `ManyToOneRel`. */
  predicate Excluded(kind: MetaKind) {
    kind == ManyToManyField || kind == ManyToOneRel || kind == OneToOneRel
  }

  /** The entries `get_all_fields` keeps, in declaration order. */
  function KeptFields(fields: seq<MetaField>): seq<MetaField> {
    Filter(fields, (f: MetaField) => !Excluded(f.kind))
  }

  /**
   * `[f.name for f in model._meta.get_fields() if not isinstance(...)]`: one name per kept entry,
   * in declaration order.
   */
  function MetaNames(fields: seq<MetaField>): (names: seq<string>)
    ensures forall x :: x in names <==> exists i :: 0 <= i < |fields| && !Excluded(fields[i].kind) && fields[i].name == x
    ensures |names| == |KeptFields(fields)|
    ensures forall k :: 0 <= k < |names| ==> names[k] == KeptFields(fields)[k].name
  {
    if fields == [] then []
    else
      var init := fields[..|fields| - 1];
      var last := fields[|fields| - 1];
      assert forall i :: 0 <= i < |init| ==> init[i] == fields[i];
      MetaNames(init) + (if Excluded(last.kind) then [] else [last.name])
  }

  /**
   * `get_all_fields(model, include_str, ignore)`: the names of the fields that are neither reverse
   * relations nor many-to-many fields, in order, without those in `ignore` when it is a non-empty
   * list (None stands for any other `ignore` argument), behind `"__str__"` when `include_str` holds.
   */
  function GetAllFields(fields: seq<MetaField>, includeStr: bool, ignore: Option<seq<string>>): (r: seq<string>)
    ensures includeStr ==> |r| > 0 && r[0] == "__str__"
    ensures var names := if includeStr then r[1..] else r;
      forall x :: x in names <==>
        && (exists i :: 0 <= i < |fields| && !Excluded(fields[i].kind) && fields[i].name == x)
        && !(ignore.Some? && ignore.value != [] && x in ignore.value)
    ensures Subseq(if includeStr then r[1..] else r, MetaNames(fields))
  {
    var all := MetaNames(fields);
    var kept := DropIgnored(all, ignore);
    KeptNames(all, ignore);
    var r := if includeStr then ["__str__"] + kept else kept;
    assert (if includeStr then r[1..] else r) == kept;
    r
  }

  /** `[n for n in all if n not in ignore]` when `ignore` is a non-empty list, else `all`. */
  function DropIgnored(all: seq<string>, ignore: Option<seq<string>>): seq<string> {
    if ignore.Some? && ignore.value != [] then Filter(all, (x: string) => x !in ignore.value) else all
  }

  lemma KeptNames(all: seq<string>, ignore: Option<seq<string>>)
    ensures var kept := DropIgnored(all, ignore);
      && (forall x :: x in kept <==> x in all && !(ignore.Some? && ignore.value != [] && x in ignore.value))
      && Subseq(kept, all)
  {
    if ignore.Some? && ignore.value != [] {
      forall x ensures x in Filter(all, (x: string) => x !in ignore.value) <==> x in all && x !in ignore.value {
        FilterMembers(all, (x: string) => x !in ignore.value, x);
      }
      FilterSubseq(all, (x: string) => x !in ignore.value);
    } else {
      SubseqRefl(all);
    }
  }
}
