/**
 * The objects of common/management/commands/generate_admin.py: an `AdminModel` filling its
 * attributes in place as it walks a model's fields, and an `AdminApp` choosing the models of an app
 * and writing the `admin.py` text for them. `re.search` with `IGNORECASE` is the `matches` parameter.
 */
module GenerateAdmin {
  import opened Wrappers
  import opened Strings
  import opened Sequences
  import opened AdminPlan
  import opened AdminRender

  class AdminModel {
    const model: ModelDecl
    const options: Options
    var listDisplay: seq<string>
    var listFilter: seq<string>
    var rawIdFields: seq<string>
    var searchFields: seq<string>
    var prepopulatedFields: Prepopulated
    var dateHierarchy: Option<string>
    /** Set by a `_process` that ran to the end; the source never sets it before that. */
    var processed: bool

    constructor (model: ModelDecl, options: Options)
      ensures this.model == model && this.options == options
      ensures Current() == InitialPlan && !processed
    {
      this.model := model;
      this.options := options;
      listDisplay, listFilter, rawIdFields, searchFields := [], [], [], [];
      prepopulatedFields := [];
      dateHierarchy := None;
      processed := false;
    }

    /** Whether foreign keys are counted in the database: not `NO_QUERY_DB`. */
    function QueryDb(): bool {
      !options.noQueryDb
    }

    /** The `name` property: the model class's `__name__`. */
    function Name(): string {
      model.name
    }

    function CurrentLists(): Lists
      reads this
    {
      Lists(listDisplay, listFilter, rawIdFields, searchFields)
    }

    /** The printable attributes as they stand. */
    function Current(): Plan
      reads this
    {
      Plan(CurrentLists(), prepopulatedFields, dateHierarchy)
    }

    /**
     * `_process_foreign_key`: counts the related rows up to the larger threshold. A key whose
     * related model has at least `raw_id_threshold` rows goes to `raw_id_fields`; one with fewer
     * rows than both thresholds goes to `list_filter`; any other goes to neither.
     */
    method ProcessForeignKey(field: Field)
      modifies this
      ensures rawIdFields == old(rawIdFields) + (if field.relatedCount >= options.rawIdThreshold then [field.name] else [])
      ensures listFilter == old(listFilter)
        + (if field.relatedCount < options.rawIdThreshold && field.relatedCount < options.listFilterThreshold then [field.name] else [])
      ensures listDisplay == old(listDisplay) && searchFields == old(searchFields)
      ensures prepopulatedFields == old(prepopulatedFields) && dateHierarchy == old(dateHierarchy)
      ensures processed == old(processed)
    {
      var rawIdThreshold := options.rawIdThreshold;
      var listFilterThreshold := options.listFilterThreshold;
      var maxCount := Max(listFilterThreshold, rawIdThreshold);
      var relatedCount := Min(field.relatedCount, maxCount);
      if relatedCount >= rawIdThreshold {
        rawIdFields := rawIdFields + [field.name];
      } else if relatedCount < listFilterThreshold {
        listFilter := listFilter + [field.name];
      }
    }

    /**
     * `_process_field`: a parent link changes nothing and gives None; any other field's name is
     * appended to the lists `FieldLists` gives and returned.
     */
    method ProcessField(field: Field) returns (name: Option<string>)
      modifies this
      ensures CurrentLists() == old(CurrentLists()).Append(FieldLists(field, options))
      ensures name == if field.isParentLink then None else Some(field.name)
      ensures prepopulatedFields == old(prepopulatedFields) && dateHierarchy == old(dateHierarchy)
      ensures processed == old(processed)
    {
      if field.isParentLink {
        AppendNoLists(CurrentLists());
        return None;
      }
      ghost var l := FieldLists(field, options);
      listDisplay := listDisplay + [field.name];
      if IsListFilterKind(field.kind) {
        if field.kind == ForeignKey && QueryDb() {
          ProcessForeignKey(field);
        } else {
          listFilter := listFilter + [field.name];
        }
      }
      if field.name in options.searchFieldNames {
        searchFields := searchFields + [field.name];
      }
      assert listDisplay == old(listDisplay) + l.display && listFilter == old(listFilter) + l.filter;
      assert rawIdFields == old(rawIdFields) + l.rawId && searchFields == old(searchFields) + l.search;
      return Some(field.name);
    }

    /** `list(_process_fields(meta))`: every field in declaration order, yielding the non-empty names. */
    method ProcessFields() returns (names: seq<string>)
      modifies this
      ensures CurrentLists() == old(CurrentLists()).Append(PlanLists(model.fields, options))
      ensures names == ProcessedNames(model.fields)
      ensures prepopulatedFields == old(prepopulatedFields) && dateHierarchy == old(dateHierarchy)
      ensures processed == old(processed)
    {
      var fs := model.fields;
      names := [];
      var i := 0;
      while i < |fs|
        invariant 0 <= i <= |fs|
        invariant CurrentLists() == old(CurrentLists()).Append(PlanLists(fs[..i], options))
        invariant names == ProcessedNames(fs[..i])
        invariant prepopulatedFields == old(prepopulatedFields) && dateHierarchy == old(dateHierarchy)
        invariant processed == old(processed)
      {
        ghost var before := CurrentLists();
        var name := ProcessField(fs[i]);
        PlanListsStep(old(CurrentLists()), before, fs, i, options);
        if name.Some? && name.value != [] {
          names := names + [name.value];
        }
        ProcessedNamesStep(fs, i);
        i := i + 1;
      }
      assert fs[..i] == fs;
    }

    /**
     * The first loop of `_process`: an attribute that is already truthy stays; otherwise the
     * date-hierarchy names are tried last to first and the first that is a field name is taken.
     */
    method ChooseDateHierarchy(fieldNames: seq<string>)
      modifies this
      ensures dateHierarchy == NextDateHierarchy(old(dateHierarchy), options.dateHierarchyNames, fieldNames)
      ensures CurrentLists() == old(CurrentLists()) && prepopulatedFields == old(prepopulatedFields)
      ensures processed == old(processed)
    {
      var dhNames := options.dateHierarchyNames;
      var i := |dhNames|;
      while i > 0
        invariant 0 <= i <= |dhNames|
        invariant dateHierarchy == old(dateHierarchy)
        invariant !Truthy(dateHierarchy) ==> forall j :: i <= j < |dhNames| ==> dhNames[j] !in fieldNames
      {
        var fieldName := dhNames[i - 1];
        if fieldName in fieldNames && !Truthy(dateHierarchy) {
          LastPresentAt(dhNames, fieldNames, i - 1);
          dateHierarchy := Some(fieldName);
          break;
        }
        i := i - 1;
      }
      if i == 0 && !Truthy(dateHierarchy) {
        LastPresentSpec(dhNames, fieldNames);
      }
    }

    /**
     * One pass of the second loop of `_process`: splits the spec at its first `=` and the rest at
     * every `,`, and writes the entry when the key and every source are processed field names. A
     * spec without `=` makes the unpacking raise: false is returned and nothing changes.
     */
    method PrepopulateOne(spec: string, fieldNames: seq<string>) returns (ok: bool)
      modifies this
      ensures ok <==> ParseSpec(spec).Some?
      ensures ok ==> var (k, vs) := ParseSpec(spec).value;
        prepopulatedFields == if Complete(k, vs, fieldNames) then Put(old(prepopulatedFields), k, vs) else old(prepopulatedFields)
      ensures !ok ==> prepopulatedFields == old(prepopulatedFields)
      ensures CurrentLists() == old(CurrentLists()) && dateHierarchy == old(dateHierarchy)
      ensures processed == old(processed)
    {
      var split := SplitOnce(spec, '=');
      if split.None? {
        return false;
      }
      var k := split.value.0;
      var vs := Split(split.value.1, ',');
      if k in fieldNames {
        var incomplete := AnyMissing(vs, fieldNames);
        if !incomplete {
          prepopulatedFields := Put(prepopulatedFields, k, vs);
        }
      }
      return true;
    }

    /**
     * The second loop of `_process`: the specs in sorted order; one without `=` raises and is
     * returned, with the dict as far as the loop got; a complete one is written into the dict.
     */
    method Prepopulate(fieldNames: seq<string>) returns (malformed: Option<string>)
      modifies this
      ensures var out := ApplySpecs(old(prepopulatedFields), SortStrings(options.prepopulatedFieldNames), fieldNames);
        prepopulatedFields == out.fields && malformed == out.malformed
      ensures CurrentLists() == old(CurrentLists()) && dateHierarchy == old(dateHierarchy)
      ensures processed == old(processed)
    {
      var specs := SortStrings(options.prepopulatedFieldNames);
      ghost var outcome := ApplySpecs(old(prepopulatedFields), specs, fieldNames);
      var n := 0;
      while n < |specs|
        invariant 0 <= n <= |specs|
        invariant ApplySpecs(prepopulatedFields, specs[n..], fieldNames) == outcome
        invariant CurrentLists() == old(CurrentLists()) && dateHierarchy == old(dateHierarchy)
        invariant processed == old(processed)
      {
        ghost var before := prepopulatedFields;
        var ok := PrepopulateOne(specs[n], fieldNames);
        ApplySpecsStep(before, specs, n, fieldNames);
        if !ok {
          return Some(specs[n]);
        }
        n := n + 1;
      }
      return None;
    }

    /**
     * `_process`: processes the fields, chooses `date_hierarchy`, then fills `prepopulated_fields`.
     * A spec without `=` raises: it is returned and `processed` is not set.
     */
    method Process() returns (malformed: Option<string>)
      modifies this
      ensures var out := Processed(old(Current()), model.fields, options);
        Current() == out.plan && malformed == out.malformed
      ensures processed == (malformed.None? || old(processed))
    {
      var fieldNames := ProcessFields();
      ChooseDateHierarchy(fieldNames);
      malformed := Prepopulate(fieldNames);
      if malformed.None? {
        processed := true;
      }
    }

    /** `_yield_tuple`: the one-line form, or one row per item when it is wider than 78 columns. */
    method YieldTuple(key: string, items: seq<string>) returns (row: string)
      ensures row == TupleText(key, items)
    {
      row := PropertyText(key, ReprTuple(items));
      if |row| > MaxLineWidth {
        ghost var rows := TupleRows(items);
        var rowParts := [PropertyText(key, "(")];
        for i := 0 to |items|
          invariant rowParts == [PropertyText(key, "(")] + rows[..i]
        {
          assert rows[..i + 1] == rows[..i] + [rows[i]];
          rowParts := rowParts + [Spaces(2 * IndentWidth) + Repr(items[i]) + ","];
        }
        assert rows[..|items|] == rows;
        rowParts := rowParts + [Spaces(IndentWidth) + ")"];
        assert rowParts == [PropertyText(key, "(")] + TupleRows(items) + [Spaces(IndentWidth) + ")"];
        row := Join(rowParts, "\n");
      }
    }

    /** `_yield_dict`: the one-line form, or one row per entry when it is wider than 78 columns. */
    method YieldDict(key: string, value: Prepopulated) returns (row: string)
      ensures row == DictText(key, value)
    {
      row := PropertyText(key, ReprDict(value));
      if |row| > MaxLineWidth {
        ghost var rows := DictRows(value);
        var rowParts := [PropertyText(key, "{")];
        for i := 0 to |value|
          invariant rowParts == [PropertyText(key, "{")] + rows[..i]
        {
          assert rows[..i + 1] == rows[..i] + [rows[i]];
          rowParts := rowParts + [Spaces(2 * IndentWidth) + ReprEntry(value[i])];
        }
        assert rows[..|value|] == rows;
        rowParts := rowParts + [Spaces(IndentWidth) + "}"];
        assert rowParts == [PropertyText(key, "{")] + rows + [Spaces(IndentWidth) + "}"];
        row := Join(rowParts, "\n");
      }
    }

    /** `_yield_value`: lists as tuples, dicts as dicts, strings through `_yield_string` with `repr`. */
    method YieldValue(key: string, value: Value) returns (text: string)
      ensures text == ValueText(key, value)
    {
      match value
      case TupleValue(items) =>
        text := YieldTuple(key, items);
      case DictValue(entries) =>
        text := YieldDict(key, entries);
      case StrValue(s) =>
        text := PropertyText(key, Repr(s));
    }

    /**
     * The loop of `_unicode_generator` after `_process`, joined: each truthy attribute of this
     * admin model rendered in `PRINTABLE_PROPERTIES` order.
     */
    method Render() returns (text: string)
      ensures text == Emitted(Current(), PrintableProperties)
    {
      var plan := Current();
      text := "";
      var props := PrintableProperties;
      for i := 0 to |props|
        invariant text == Emitted(plan, props[..i])
      {
        assert props[..i + 1][..i] == props[..i];
        var value := Attribute(plan, props[i]);
        if IsTruthy(value) {
          var piece := YieldValue(PropertyName(props[i]), value.value);
          text := text + piece;
        }
      }
      assert props[..|props|] == props;
    }

    /**
     * `__unicode__`: runs `_process`, then renders the attributes; a malformed prepopulated spec
     * raises `ValueError` instead.
     */
    method Text() returns (r: Result<string>)
      modifies this
      ensures var out := Processed(old(Current()), model.fields, options);
        Current() == out.plan && r == TextOf(out)
    {
      var malformed := Process();
      if malformed.Some? {
        return Err("ValueError");
      }
      var text := Render();
      return Ok(text);
    }
  }

  /**
   * The inner loop of `_process` over a spec's source fields: true as soon as one of them is not a
   * processed field name.
   */
  method AnyMissing(vs: seq<string>, fieldNames: seq<string>) returns (incomplete: bool)
    ensures incomplete <==> exists v :: v in vs && v !in fieldNames
  {
    incomplete := false;
    for m := 0 to |vs|
      invariant forall t :: 0 <= t < m ==> vs[t] in fieldNames
    {
      if vs[m] !in fieldNames {
        incomplete := true;
        return;
      }
    }
  }

  /** One step of the prepopulated loop: a spec without `=` stops it, any other is applied. */
  lemma ApplySpecsStep(pf: Prepopulated, specs: seq<string>, n: nat, fieldNames: seq<string>)
    requires n < |specs|
    ensures ParseSpec(specs[n]).None? ==> ApplySpecs(pf, specs[n..], fieldNames) == SpecsOutcome(pf, Some(specs[n]))
    ensures ParseSpec(specs[n]).Some? ==> var (k, vs) := ParseSpec(specs[n]).value;
      ApplySpecs(pf, specs[n..], fieldNames)
      == ApplySpecs(if Complete(k, vs, fieldNames) then Put(pf, k, vs) else pf, specs[n + 1..], fieldNames)
  {
    assert specs[n..][0] == specs[n] && specs[n..][1..] == specs[n + 1..];
  }

  lemma AppendNoLists(l: Lists)
    ensures l.Append(NoLists) == l
  {
    assert l.display + [] == l.display && l.filter + [] == l.filter;
    assert l.rawId + [] == l.rawId && l.search + [] == l.search;
  }

  /** One more field processed extends the lists by that field's lists. */
  lemma PlanListsStep(start: Lists, before: Lists, fs: seq<Field>, i: nat, o: Options)
    requires i < |fs| && before == start.Append(PlanLists(fs[..i], o))
    ensures before.Append(FieldLists(fs[i], o)) == start.Append(PlanLists(fs[..i + 1], o))
  {
    PlanListsUnfold(fs, i, o);
    AppendAssoc(start, PlanLists(fs[..i], o), FieldLists(fs[i], o));
  }

  lemma PlanListsUnfold(fs: seq<Field>, i: nat, o: Options)
    requires i < |fs|
    ensures PlanLists(fs[..i + 1], o) == PlanLists(fs[..i], o).Append(FieldLists(fs[i], o))
  {
    assert fs[..i + 1][..i] == fs[..i];
    assert fs[..i + 1][i] == fs[i];
  }

  lemma AppendAssoc(a: Lists, b: Lists, c: Lists)
    ensures a.Append(b).Append(c) == a.Append(b.Append(c))
  {
    assert (a.display + b.display) + c.display == a.display + (b.display + c.display);
    assert (a.filter + b.filter) + c.filter == a.filter + (b.filter + c.filter);
    assert (a.rawId + b.rawId) + c.rawId == a.rawId + (b.rawId + c.rawId);
    assert (a.search + b.search) + c.search == a.search + (b.search + c.search);
  }

  /** One more field processed yields its name when it is not a parent link and not empty. */
  lemma ProcessedNamesStep(fs: seq<Field>, i: nat)
    requires i < |fs|
    ensures ProcessedNames(fs[..i + 1])
      == ProcessedNames(fs[..i]) + (if !fs[i].isParentLink && fs[i].name != [] then [fs[i].name] else [])
  {
    assert fs[..i + 1][..i] == fs[..i];
  }

  /** A present name with no present name after it is the last present one. */
  lemma {:induction false} LastPresentAt(names: seq<string>, present: seq<string>, i: nat)
    requires i < |names| && names[i] in present
    requires forall j :: i < j < |names| ==> names[j] !in present
    ensures LastPresent(names, present) == Some(names[i])
    decreases |names|
  {
    if i < |names| - 1 {
      var init := names[..|names| - 1];
      assert forall j :: i < j < |init| ==> init[j] == names[j];
      LastPresentAt(init, present, i);
    }
  }

  /** The text after a `_process` with this outcome: the rendered attributes, or its `ValueError`. */
  function TextOf(out: ProcessOutcome): Result<string> {
    if out.malformed.Some? then Err("ValueError") else Ok(Emitted(out.plan, PrintableProperties))
  }

  /** What `str(AdminModel(model, **options))` gives for a fresh model. */
  function ModelText(model: ModelDecl, options: Options): Result<string> {
    TextOf(Processed(InitialPlan, model.fields, options))
  }

  /** `PRINT_IMPORTS`. */
  const PrintImports: string :=
    "\nfrom django.contrib import admin\nfrom import_export.admin import ImportExportMixin\n"
    + "from import_export import resources\nfrom . import models\n\n"

  /** `PRINT_ADMIN_CLASS % dict(name=name, class_=body)`. */
  function ClassText(name: string, body: string): string {
    "\n\n@admin.register(models." + name + ")\nclass " + name + "Admin(ImportExportMixin, admin.ModelAdmin):\n\n"
    + "    class " + name + "Resource(resources.ModelResource):\n        class Meta:\n"
    + "            model = models." + name + "\n" + body + "\n"
  }

  /** `str(AdminModel(m, **options))` as a function of the model. */
  function ModelTexts(options: Options): ModelDecl -> Result<string> {
    (m: ModelDecl) => ModelText(m, options)
  }

  /** The class blocks of `models`, in order, or the error of the first model whose text raises. */
  function ClassBlocks(models: seq<ModelDecl>, text: ModelDecl -> Result<string>): Result<string> {
    if models == [] then Ok("")
    else
      match ClassBlocks(models[..|models| - 1], text)
      case Err(e) => Err(e)
      case Ok(blocks) =>
        var last := models[|models| - 1];
        match text(last)
        case Err(e) => Err(e)
        case Ok(body) => Ok(blocks + ClassText(last.name, body))
  }

  /** The blocks are written exactly when every model's text is. */
  lemma {:induction false} ClassBlocksOk(models: seq<ModelDecl>, text: ModelDecl -> Result<string>)
    ensures ClassBlocks(models, text).Ok? <==> forall i :: 0 <= i < |models| ==> text(models[i]).Ok?
    decreases |models|
  {
    if models != [] {
      var init := models[..|models| - 1];
      ClassBlocksOk(init, text);
      assert forall i :: 0 <= i < |init| ==> init[i] == models[i];
    }
  }

  /** A prefix whose blocks are written grows by the block of the next model when its text is written. */
  lemma ClassBlocksStep(models: seq<ModelDecl>, text: ModelDecl -> Result<string>, i: nat, blocks: string)
    requires i < |models| && ClassBlocks(models[..i], text) == Ok(blocks) && text(models[i]).Ok?
    ensures ClassBlocks(models[..i + 1], text) == Ok(blocks + ClassText(models[i].name, text(models[i]).value))
  {
    assert models[..i + 1][..i] == models[..i];
  }

  /** Once a prefix fails, every longer prefix fails with the same error. */
  lemma {:induction false} ClassBlocksErr(models: seq<ModelDecl>, text: ModelDecl -> Result<string>, i: nat)
    requires i < |models| && ClassBlocks(models[..i], text).Ok? && text(models[i]).Err?
    ensures ClassBlocks(models, text) == Err(text(models[i]).error)
    decreases |models|
  {
    if i < |models| - 1 {
      var init := models[..|models| - 1];
      assert init[..i] == models[..i] && init[i] == models[i];
      ClassBlocksErr(init, text, i);
    } else {
      assert models[..|models| - 1] == models[..i];
    }
  }

  /** What `str(AdminApp(app, *patterns, **options))` gives. */
  function AppText(models: seq<ModelDecl>, patterns: seq<string>, matches: (string, string) -> bool, options: Options): Result<string> {
    match ClassBlocks(Selected(models, patterns, matches), ModelTexts(options))
    case Err(e) => Err(e)
    case Ok(blocks) => Ok(PrintImports + blocks)
  }

  /** A model is selected when no pattern is given or some pattern matches its name. */
  predicate IsSelected(patterns: seq<string>, matches: (string, string) -> bool, name: string) {
    patterns == [] || exists p :: p in patterns && matches(p, name)
  }

  /** The models `AdminApp.__iter__` yields. */
  function Selected(models: seq<ModelDecl>, patterns: seq<string>, matches: (string, string) -> bool): seq<ModelDecl> {
    Filter(models, (m: ModelDecl) => IsSelected(patterns, matches, m.name))
  }

  /**
   * `AdminApp` yields the app's models in app order, each at most once as often as the app lists
   * it, and a model exactly when the pattern list is empty or one of the patterns matches its name.
   */
  lemma SelectedModels(models: seq<ModelDecl>, patterns: seq<string>, matches: (string, string) -> bool, m: ModelDecl)
    ensures Subseq(Selected(models, patterns, matches), models)
    ensures m in Selected(models, patterns, matches) <==> m in models && IsSelected(patterns, matches, m.name)
  {
    FilterSubseq(models, (m: ModelDecl) => IsSelected(patterns, matches, m.name));
    FilterMembers(models, (m: ModelDecl) => IsSelected(patterns, matches, m.name), m);
  }

  class AdminApp {
    /** `get_models(app)`: the app's models in registry order. */
    const models: seq<ModelDecl>
    /** The model-name patterns, before compilation. */
    const patterns: seq<string>
    const options: Options

    constructor (models: seq<ModelDecl>, patterns: seq<string>, options: Options)
      ensures this.models == models && this.patterns == patterns && this.options == options
    {
      this.models := models;
      this.patterns := patterns;
      this.options := options;
    }

    /**
     * `__iter__`: a model is skipped when patterns are given and none matches its name (the
     * `for ... else: continue`).
     */
    method Iter(matches: (string, string) -> bool) returns (selected: seq<ModelDecl>)
      ensures selected == Selected(models, patterns, matches)
    {
      selected := [];
      for i := 0 to |models|
        invariant selected == Selected(models[..i], patterns, matches)
      {
        var model := models[i];
        var matched := false;
        for j := 0 to |patterns|
          invariant !matched && forall t :: 0 <= t < j ==> !matches(patterns[t], model.name)
        {
          if matches(patterns[j], model.name) {
            matched := true;
            break;
          }
        }
        assert models[..i + 1][..i] == models[..i];
        if !matched && patterns != [] {
          assert !IsSelected(patterns, matches, model.name);
          continue;
        }
        selected := selected + [model];
      }
      assert models[..|models|] == models;
    }

    /**
     * `__unicode__`: `PRINT_IMPORTS` followed by one `PRINT_ADMIN_CLASS` block per selected model,
     * or the error of the first model whose text raises.
     */
    method Unicode(matches: (string, string) -> bool) returns (r: Result<string>)
      ensures r == AppText(models, patterns, matches, options)
    {
      var selected := Iter(matches);
      var blocks := "";
      ghost var text := ModelTexts(options);
      for i := 0 to |selected|
        invariant ClassBlocks(selected[..i], text) == Ok(blocks)
      {
        var adminModel := new AdminModel(selected[i], options);
        var body := adminModel.Text();
        assert body == text(selected[i]);
        if body.Err? {
          ClassBlocksErr(selected, text, i);
          return Err(body.error);
        }
        ClassBlocksStep(selected, text, i, blocks);
        blocks := blocks + ClassText(adminModel.Name(), body.value);
      }
      assert selected[..|selected|] == selected;
      return Ok(PrintImports + blocks);
    }
  }
}
