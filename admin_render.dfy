/**
 * The text `generate_admin` writes for one `AdminModel`, common/management/commands/generate_admin.py:
 * each printable attribute as `key = value` on one line (`PRINT_ADMIN_PROPERTY`), or spread over one
 * line per item when that line would be wider than `MAX_LINE_WIDTH`.
 */
module AdminRender {
  import opened Wrappers
  import opened Strings
  import opened AdminPlan

  const MaxLineWidth: nat := 78
  const IndentWidth: nat := 4

  /** `n * " "`. */
  function Spaces(n: nat): (r: string)
    ensures |r| == n && forall i :: 0 <= i < n ==> r[i] == ' '
  {
    if n == 0 then "" else Spaces(n - 1) + " "
  }

  /** `repr(s)` of a str, written as `'s'`: quote and backslash escaping is not modelled. */
  function Repr(s: string): string {
    "'" + s + "'"
  }

  function ReprAll(items: seq<string>): (r: seq<string>)
    ensures |r| == |items| && forall i :: 0 <= i < |items| ==> r[i] == Repr(items[i])
  {
    if items == [] then [] else [Repr(items[0])] + ReprAll(items[1..])
  }

  /** `repr(tuple(items))`: a one-item tuple keeps a trailing comma. */
  function ReprTuple(items: seq<string>): string {
    "(" + Join(ReprAll(items), ", ") + (if |items| == 1 then "," else "") + ")"
  }

  /** `repr(items)` of a list. */
  function ReprList(items: seq<string>): string {
    "[" + Join(ReprAll(items), ", ") + "]"
  }

  /** `"%r: %r" % (k, v)`, also how `repr` of a dict shows one entry. */
  function ReprEntry(entry: (string, seq<string>)): string {
    Repr(entry.0) + ": " + ReprList(entry.1)
  }

  function ReprEntries(pf: Prepopulated): (r: seq<string>)
    ensures |r| == |pf| && forall i :: 0 <= i < |pf| ==> r[i] == ReprEntry(pf[i])
  {
    if pf == [] then [] else [ReprEntry(pf[0])] + ReprEntries(pf[1..])
  }

  /** `repr(pf)` of a dict, entries in insertion order. */
  function ReprDict(pf: Prepopulated): string {
    "{" + Join(ReprEntries(pf), ", ") + "}"
  }

  /** `PRINT_ADMIN_PROPERTY % dict(key=key, value=text)`: a line break, four spaces, `key = text`. */
  function PropertyText(key: string, text: string): string {
    "\n" + Spaces(IndentWidth) + key + " = " + text
  }

  /** One item line of a wrapped tuple, indented eight spaces and ending in a comma. */
  function TupleRow(item: string): string {
    Spaces(2 * IndentWidth) + Repr(item) + ","
  }

  function TupleRows(items: seq<string>): (rows: seq<string>)
    ensures |rows| == |items| && forall i :: 0 <= i < |items| ==> rows[i] == TupleRow(items[i])
  {
    if items == [] then [] else [TupleRow(items[0])] + TupleRows(items[1..])
  }

  /** One entry line of a wrapped dict, indented eight spaces, with no trailing comma. */
  function DictRow(entry: (string, seq<string>)): string {
    Spaces(2 * IndentWidth) + ReprEntry(entry)
  }

  function DictRows(pf: Prepopulated): (rows: seq<string>)
    ensures |rows| == |pf| && forall i :: 0 <= i < |pf| ==> rows[i] == DictRow(pf[i])
  {
    if pf == [] then [] else [DictRow(pf[0])] + DictRows(pf[1..])
  }

  /** What `_yield_tuple(key, items)` returns. */
  function TupleText(key: string, items: seq<string>): string {
    var row := PropertyText(key, ReprTuple(items));
    if |row| > MaxLineWidth then
      Join([PropertyText(key, "(")] + TupleRows(items) + [Spaces(IndentWidth) + ")"], "\n")
    else row
  }

  /** What `_yield_dict(key, pf)` returns. */
  function DictText(key: string, pf: Prepopulated): string {
    var row := PropertyText(key, ReprDict(pf));
    if |row| > MaxLineWidth then
      Join([PropertyText(key, "{")] + DictRows(pf) + [Spaces(IndentWidth) + "}"], "\n")
    else row
  }

  /** The attribute values `_yield_value` accepts: lists (rendered as tuples), dicts and strings. */
  datatype Value = TupleValue(items: seq<string>) | DictValue(entries: Prepopulated) | StrValue(s: string)

  /** What `_yield_value(key, v)` returns. */
  function ValueText(key: string, v: Value): string {
    match v
    case TupleValue(items) => TupleText(key, items)
    case DictValue(entries) => DictText(key, entries)
    case StrValue(s) => PropertyText(key, Repr(s))
  }

  // ---------------------------------------------------------------------------------------------
  // Line structure

  predicate OneLine(s: string) {
    '\n' !in s
  }

  predicate AllOneLine(parts: seq<string>) {
    forall k :: 0 <= k < |parts| ==> '\n' !in parts[k]
  }

  lemma {:induction false} JoinOneLine(parts: seq<string>, sep: string)
    requires AllOneLine(parts) && OneLine(sep)
    ensures OneLine(Join(parts, sep))
    decreases |parts|
  {
    if |parts| > 1 {
      assert AllOneLine(parts[1..]) by {
        forall k | 0 <= k < |parts[1..]| ensures '\n' !in parts[1..][k] {
          assert parts[1..][k] == parts[k + 1];
        }
      }
      JoinOneLine(parts[1..], sep);
      assert '\n' !in parts[0];
    }
  }

  lemma ReprOneLine(s: string)
    requires OneLine(s)
    ensures OneLine(Repr(s))
  {
  }

  lemma ReprAllOneLine(items: seq<string>)
    requires AllOneLine(items)
    ensures AllOneLine(ReprAll(items))
  {
    forall k | 0 <= k < |items| ensures '\n' !in ReprAll(items)[k] {
      ReprOneLine(items[k]);
    }
  }

  lemma ReprListOneLine(items: seq<string>)
    requires AllOneLine(items)
    ensures OneLine(ReprList(items))
  {
    ReprAllOneLine(items);
    JoinOneLine(ReprAll(items), ", ");
  }

  lemma ReprTupleOneLine(items: seq<string>)
    requires AllOneLine(items)
    ensures OneLine(ReprTuple(items))
  {
    ReprAllOneLine(items);
    JoinOneLine(ReprAll(items), ", ");
  }

  /** A dict whose keys and values are all free of line breaks. */
  predicate DictOneLine(pf: Prepopulated) {
    forall i :: 0 <= i < |pf| ==> OneLine(pf[i].0) && AllOneLine(pf[i].1)
  }

  lemma ReprEntriesOneLine(pf: Prepopulated)
    requires DictOneLine(pf)
    ensures AllOneLine(ReprEntries(pf)) && AllOneLine(DictRows(pf))
  {
    forall k | 0 <= k < |pf| ensures '\n' !in ReprEntries(pf)[k] && '\n' !in DictRows(pf)[k] {
      ReprListOneLine(pf[k].1);
    }
  }

  lemma ReprDictOneLine(pf: Prepopulated)
    requires DictOneLine(pf)
    ensures OneLine(ReprDict(pf))
  {
    ReprEntriesOneLine(pf);
    JoinOneLine(ReprEntries(pf), ", ");
  }

  /** A text that starts with a line break and then holds one line splits into an empty line and it. */
  lemma ShortLines(line: string)
    requires OneLine(line)
    ensures Split("\n" + line, '\n') == ["", line]
  {
    assert Join(["", line], "\n") == "\n" + line by {
      assert ["", line][1..] == [line];
    }
    SplitJoin(["", line], '\n');
  }

  /**
   * A header line that starts with a line break, item rows and a closing line, joined by line breaks,
   * split back into an empty line, the header, the rows in order and the closing line.
   */
  lemma FramedLines(head: string, rows: seq<string>, close: string)
    requires OneLine(head) && AllOneLine(rows) && OneLine(close)
    ensures Split(Join(["\n" + head] + rows + [close], "\n"), '\n') == ["", head] + rows + [close]
  {
    var rest := rows + [close];
    var lines := [""] + ([head] + rest);
    assert ["\n" + head] + rows + [close] == ["\n" + head] + rest;
    assert ["", head] + rows + [close] == lines;
    LeadingSeparator(head, rest, "\n");
    FramedOneLine(head, rows, close);
    SplitJoin(lines, '\n');
  }

  /** A first part that starts with the separator joins like an empty part before it. */
  lemma LeadingSeparator(head: string, rest: seq<string>, sep: string)
    requires rest != []
    ensures Join([sep + head] + rest, sep) == Join([""] + ([head] + rest), sep)
  {
    JoinCons(sep + head, rest, sep);
    JoinCons(head, rest, sep);
    JoinCons("", [head] + rest, sep);
    assert sep + head + sep + Join(rest, sep) == "" + sep + (head + sep + Join(rest, sep));
  }

  lemma FramedOneLine(head: string, rows: seq<string>, close: string)
    requires OneLine(head) && AllOneLine(rows) && OneLine(close)
    ensures AllOneLine([""] + ([head] + (rows + [close])))
  {
    var lines := [""] + ([head] + (rows + [close]));
    forall k | 0 <= k < |lines| ensures '\n' !in lines[k] {
      if 2 <= k < 2 + |rows| {
        assert lines[k] == rows[k - 2];
      }
    }
  }

  /**
   * `_yield_tuple`: the one-line form `\n    key = (...)` when it fits in 78 columns; otherwise an
   * empty line, `    key = (`, one line per item in order (eight spaces, the item's repr, a
   * comma) and `    )`.
   */
  lemma TupleTextLines(key: string, items: seq<string>)
    requires OneLine(key) && AllOneLine(items)
    ensures var row := PropertyText(key, ReprTuple(items));
      Split(TupleText(key, items), '\n')
        == if |row| <= MaxLineWidth then ["", Spaces(IndentWidth) + key + " = " + ReprTuple(items)]
           else ["", Spaces(IndentWidth) + key + " = ("] + TupleRows(items) + [Spaces(IndentWidth) + ")"]
  {
    var row := PropertyText(key, ReprTuple(items));
    if |row| <= MaxLineWidth {
      ReprTupleOneLine(items);
      assert row == "\n" + (Spaces(IndentWidth) + key + " = " + ReprTuple(items));
      ShortLines(Spaces(IndentWidth) + key + " = " + ReprTuple(items));
    } else {
      var rows := TupleRows(items);
      assert AllOneLine(rows) by {
        forall k | 0 <= k < |rows| ensures '\n' !in rows[k] {
          ReprOneLine(items[k]);
        }
      }
      var head := Spaces(IndentWidth) + key + " = (";
      assert PropertyText(key, "(") == "\n" + head;
      FramedLines(head, rows, Spaces(IndentWidth) + ")");
    }
  }

  /**
   * `_yield_dict`: the one-line form `\n    key = {...}` when it fits in 78 columns; otherwise an
   * empty line, `    key = {`, one line per entry in insertion order (eight spaces, `'k': [...]`,
   * no comma) and `    }`.
   */
  lemma DictTextLines(key: string, pf: Prepopulated)
    requires OneLine(key) && DictOneLine(pf)
    ensures var row := PropertyText(key, ReprDict(pf));
      Split(DictText(key, pf), '\n')
        == if |row| <= MaxLineWidth then ["", Spaces(IndentWidth) + key + " = " + ReprDict(pf)]
           else ["", Spaces(IndentWidth) + key + " = {"] + DictRows(pf) + [Spaces(IndentWidth) + "}"]
  {
    var row := PropertyText(key, ReprDict(pf));
    ReprEntriesOneLine(pf);
    if |row| <= MaxLineWidth {
      ReprDictOneLine(pf);
      assert row == "\n" + (Spaces(IndentWidth) + key + " = " + ReprDict(pf));
      ShortLines(Spaces(IndentWidth) + key + " = " + ReprDict(pf));
    } else {
      var head := Spaces(IndentWidth) + key + " = {";
      assert PropertyText(key, "{") == "\n" + head;
      FramedLines(head, DictRows(pf), Spaces(IndentWidth) + "}");
    }
  }

  /** `repr` of a one-item tuple ends in `,)`. */
  lemma OneItemTuple(item: string)
    ensures ReprTuple([item]) == "('" + item + "',)"
  {
    assert ReprAll([item]) == [Repr(item)];
  }

  /** Every rendered value starts on a fresh line with four spaces and `key = `. */
  lemma ValueTextHead(key: string, v: Value)
    ensures "\n" + Spaces(IndentWidth) + key + " = " <= ValueText(key, v)
  {
    var head := "\n" + Spaces(IndentWidth) + key + " = ";
    match v
    case TupleValue(items) =>
      var row := PropertyText(key, ReprTuple(items));
      if |row| > MaxLineWidth {
        var parts := [PropertyText(key, "(")] + TupleRows(items) + [Spaces(IndentWidth) + ")"];
        assert Join(parts, "\n") == parts[0] + "\n" + Join(parts[1..], "\n");
        assert PropertyText(key, "(") == head + "(";
      }
    case DictValue(pf) =>
      var row := PropertyText(key, ReprDict(pf));
      if |row| > MaxLineWidth {
        var parts := [PropertyText(key, "{")] + DictRows(pf) + [Spaces(IndentWidth) + "}"];
        assert Join(parts, "\n") == parts[0] + "\n" + Join(parts[1..], "\n");
        assert PropertyText(key, "{") == head + "{";
      }
    case StrValue(s) =>
  }

  // ---------------------------------------------------------------------------------------------
  // The printable attributes

  datatype Property = ListDisplay | ListFilter | RawIdFields | SearchFields | PrepopulatedFields | DateHierarchy

  /** `AdminModel.PRINTABLE_PROPERTIES`. */
  const PrintableProperties: seq<Property> :=
    [ListDisplay, ListFilter, RawIdFields, SearchFields, PrepopulatedFields, DateHierarchy]

  function PropertyName(p: Property): string {
    match p
    case ListDisplay => "list_display"
    case ListFilter => "list_filter"
    case RawIdFields => "raw_id_fields"
    case SearchFields => "search_fields"
    case PrepopulatedFields => "prepopulated_fields"
    case DateHierarchy => "date_hierarchy"
  }

  /** `getattr(self, key)`, None for an unset `date_hierarchy`. */
  function Attribute(plan: Plan, p: Property): Option<Value> {
    match p
    case ListDisplay => Some(TupleValue(plan.lists.display))
    case ListFilter => Some(TupleValue(plan.lists.filter))
    case RawIdFields => Some(TupleValue(plan.lists.rawId))
    case SearchFields => Some(TupleValue(plan.lists.search))
    case PrepopulatedFields => Some(DictValue(plan.prepopulated))
    case DateHierarchy => if plan.dateHierarchy.Some? then Some(StrValue(plan.dateHierarchy.value)) else None
  }

  /** `if value:` on an attribute: set, and not an empty list, dict or string. */
  predicate IsTruthy(v: Option<Value>) {
    match v
    case None => false
    case Some(TupleValue(items)) => items != []
    case Some(DictValue(entries)) => entries != []
    case Some(StrValue(s)) => s != []
  }

  /** The text one attribute contributes: its rendering when truthy, nothing otherwise. */
  function Piece(plan: Plan, p: Property): string {
    var v := Attribute(plan, p);
    if IsTruthy(v) then ValueText(PropertyName(p), v.value) else ""
  }

  /** The attributes `props` rendered one after the other, as `_unicode_generator` yields them. */
  function Emitted(plan: Plan, props: seq<Property>): string {
    if props == [] then "" else Emitted(plan, props[..|props| - 1]) + Piece(plan, props[|props| - 1])
  }

  /** The class body is the six attributes in `PRINTABLE_PROPERTIES` order, the falsy ones left out. */
  lemma EmittedInOrder(plan: Plan)
    ensures Emitted(plan, PrintableProperties)
      == Piece(plan, ListDisplay) + Piece(plan, ListFilter) + Piece(plan, RawIdFields)
         + Piece(plan, SearchFields) + Piece(plan, PrepopulatedFields) + Piece(plan, DateHierarchy)
  {
    var ps := PrintableProperties;
    assert ps[..1][..0] == [] && ps[..1][0] == ListDisplay;
    assert Emitted(plan, ps[..1]) == Piece(plan, ListDisplay);
    assert ps[..2][..1] == ps[..1] && ps[..2][1] == ListFilter;
    assert Emitted(plan, ps[..2]) == Emitted(plan, ps[..1]) + Piece(plan, ListFilter);
    assert ps[..3][..2] == ps[..2] && ps[..3][2] == RawIdFields;
    assert Emitted(plan, ps[..3]) == Emitted(plan, ps[..2]) + Piece(plan, RawIdFields);
    assert ps[..4][..3] == ps[..3] && ps[..4][3] == SearchFields;
    assert Emitted(plan, ps[..4]) == Emitted(plan, ps[..3]) + Piece(plan, SearchFields);
    assert ps[..5][..4] == ps[..4] && ps[..5][4] == PrepopulatedFields;
    assert Emitted(plan, ps[..5]) == Emitted(plan, ps[..4]) + Piece(plan, PrepopulatedFields);
    assert ps[..5] == ps[..|ps| - 1] && ps[5] == DateHierarchy;
    assert Emitted(plan, ps) == Emitted(plan, ps[..5]) + Piece(plan, DateHierarchy);
  }

  /** A model with no field to show renders as nothing. */
  lemma {:induction false} NothingTruthyEmitsNothing(plan: Plan, props: seq<Property>)
    requires forall i :: 0 <= i < |props| ==> !IsTruthy(Attribute(plan, props[i]))
    ensures Emitted(plan, props) == ""
    decreases |props|
  {
    if props != [] {
      var init := props[..|props| - 1];
      assert forall i :: 0 <= i < |init| ==> init[i] == props[i];
      NothingTruthyEmitsNothing(plan, init);
      assert Piece(plan, props[|props| - 1]) == "";
    }
  }
}
