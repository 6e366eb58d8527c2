/**
 * Schema derivation done by `ModelMetaclass.__new__` when a model class is
 * created: split the declared fields into the primary key and the ordered other
 * fields, take the field attributes out of the class, and render the four SQL
 * templates with `?` placeholders.
 */
module Schema {
  import opened Wrappers
  import opened Values
  import opened Seqs
  import opened SqlText
  import opened Fields

  /** A class-body attribute: a `Field` instance or any other value. */
  datatype Attr = FieldAttr(field: Field) | Plain(value: Value)

  /** The class-body namespace `attrs`, in definition order. */
  type Attrs = seq<(string, Attr)>

  /** Keys of a Python dict are distinct, and class-body names are non-empty identifiers. */
  predicate WellFormedAttrs(attrs: Attrs) {
    && (forall i, j :: 0 <= i < j < |attrs| ==> attrs[i].0 != attrs[j].0)
    && (forall i :: 0 <= i < |attrs| ==> attrs[i].0 != "")
  }

  /** Which attributes a list of names is drawn from. */
  datatype Selector = AnyAttr | AnyField | KeyField | NonKeyField

  predicate Selects(sel: Selector, a: Attr) {
    match sel
    case AnyAttr => true
    case AnyField => a.FieldAttr?
    case KeyField => a.FieldAttr? && a.field.primaryKey
    case NonKeyField => a.FieldAttr? && !a.field.primaryKey
  }

  /** The names of the selected attributes, in definition order. */
  function Names(attrs: Attrs, sel: Selector): seq<string> {
    if |attrs| == 0 then []
    else
      var last := attrs[|attrs| - 1];
      Names(attrs[..|attrs| - 1], sel) + (if Selects(sel, last.1) then [last.0] else [])
  }

  /** The `mappings` dict: attribute name to its `Field`. */
  function Mappings(attrs: Attrs): map<string, Field> {
    if |attrs| == 0 then map[]
    else
      var last := attrs[|attrs| - 1];
      var init := Mappings(attrs[..|attrs| - 1]);
      if last.1.FieldAttr? then init[last.0 := last.1.field] else init
  }

  /** The attributes whose name is not in `ks`, in definition order. */
  function Without(attrs: Attrs, ks: set<string>): Attrs {
    if |attrs| == 0 then []
    else
      var last := attrs[|attrs| - 1];
      Without(attrs[..|attrs| - 1], ks) + (if last.0 in ks then [] else [last])
  }

  /** The set of names in a list. */
  function SetOf(names: seq<string>): set<string> {
    set x | x in names
  }

  /** `attrs.pop(k)`. */
  function RemoveKey(attrs: Attrs, k: string): Attrs {
    Without(attrs, {k})
  }

  /** The attributes that are not fields, in definition order. */
  function Rest(attrs: Attrs): Attrs {
    if |attrs| == 0 then []
    else
      var last := attrs[|attrs| - 1];
      Rest(attrs[..|attrs| - 1]) + (if last.1.FieldAttr? then [] else [last])
  }

  /** `attrs.get(key, None)`. */
  function Lookup(attrs: Attrs, key: string): Option<Attr> {
    if |attrs| == 0 then None
    else if attrs[|attrs| - 1].0 == key then Some(attrs[|attrs| - 1].1)
    else Lookup(attrs[..|attrs| - 1], key)
  }

  /** `attrs.get('__table__', None) or name`, for a string-valued `__table__`. */
  function TableName(name: string, attrs: Attrs): string {
    match Lookup(attrs, "__table__")
    case Some(Plain(Str(s))) => if s != "" then s else name
    case _ => name
  }

  /** The class attributes set by the derivation: `__table__`, `__mappings__`, ... and the SQL. */
  datatype Table = Table(
    name: string,
    mappings: map<string, Field>,
    primaryKey: string,
    fields: seq<string>,
    selectSql: string,
    insertSql: string,
    updateSql: string,
    deleteSql: string)

  /** A model class after `__new__`: its remaining attributes, and its table unless it is `Model` itself. */
  datatype ModelClass = ModelClass(name: string, attrs: Attrs, table: Option<Table>)

  /** Fatal configuration errors raised while the class is created. */
  datatype SchemaError = DuplicatePrimaryKey(key: string) | PrimaryKeyNotFound

  /** `escaped_fields`: each name back-quoted. */
  function Escaped(fields: seq<string>): (r: seq<string>)
    ensures |r| == |fields|
    ensures forall i :: 0 <= i < |r| ==> r[i] == Quote(fields[i])
  {
    if |fields| == 0 then [] else [Quote(fields[0])] + Escaped(fields[1..])
  }

  /** `mappings.get(f).name or f`: the column-name override of a field, else its attribute name. */
  function Column(mappings: map<string, Field>, f: string): string {
    if f in mappings && mappings[f].name.Some? && mappings[f].name.value != "" then mappings[f].name.value else f
  }

  /** The `set` list of the update template: `` `col`=? `` per field. */
  function Assignments(mappings: map<string, Field>, fields: seq<string>): (r: seq<string>)
    ensures |r| == |fields|
    ensures forall i :: 0 <= i < |r| ==> r[i] == Quote(Column(mappings, fields[i])) + "=?"
  {
    if |fields| == 0 then [] else [Quote(Column(mappings, fields[0])) + "=?"] + Assignments(mappings, fields[1..])
  }

  function SelectSql(table: string, pk: string, fields: seq<string>): string {
    "select " + Quote(pk) + ", " + Join(", ", Escaped(fields)) + " from " + Quote(table)
  }

  function InsertSql(table: string, pk: string, fields: seq<string>): string {
    "insert into " + Quote(table) + " (" + Join(", ", Escaped(fields)) + ", " + Quote(pk)
      + ") values (" + ArgsString(|fields| + 1) + ")"
  }

  function UpdateSql(table: string, mappings: map<string, Field>, pk: string, fields: seq<string>): string {
    "update " + Quote(table) + " set " + Join(", ", Assignments(mappings, fields)) + " where " + Quote(pk) + "=?"
  }

  function DeleteSql(table: string, pk: string): string {
    "delete from " + Quote(table) + " where " + Quote(pk) + "=?"
  }

  function MakeTable(table: string, mappings: map<string, Field>, pk: string, fields: seq<string>): Table {
    Table(table, mappings, pk, fields,
          SelectSql(table, pk, fields), InsertSql(table, pk, fields),
          UpdateSql(table, mappings, pk, fields), DeleteSql(table, pk))
  }

  /** What `ModelMetaclass.__new__(cls, name, bases, attrs)` produces or raises. */
  function Derive(name: string, attrs: Attrs): Result<ModelClass, SchemaError> {
    if name == "Model" then Success(ModelClass(name, attrs, None))
    else
      var keys := Names(attrs, KeyField);
      if |keys| >= 2 then Failure(DuplicatePrimaryKey(keys[1]))
      else if |keys| == 0 then Failure(PrimaryKeyNotFound)
      else
        var t := MakeTable(TableName(name, attrs), Mappings(attrs), keys[0], Names(attrs, NonKeyField));
        Success(ModelClass(name, Rest(attrs), Some(t)))
  }

  /** What the pass over the class body collects: `mappings`, the mapped names in order, `fields` and the key. */
  datatype Collected = Collected(mappings: map<string, Field>, names: seq<string>, fields: seq<string>, primaryKey: string)

  /**
   * The `for k, v in attrs.items()` pass: fills `mappings` and `fields`, remembers
   * the primary key, and fails at a second primary key or when none was seen.
   */
  method CollectFields(attrs: Attrs) returns (r: Result<Collected, SchemaError>)
    ensures |Names(attrs, KeyField)| >= 2 ==> r == Failure(DuplicatePrimaryKey(Names(attrs, KeyField)[1]))
    ensures |Names(attrs, KeyField)| == 0 ==> r == Failure(PrimaryKeyNotFound)
    ensures |Names(attrs, KeyField)| == 1 ==>
      r == Success(Collected(Mappings(attrs), Names(attrs, AnyField), Names(attrs, NonKeyField), Names(attrs, KeyField)[0]))
  {
    var mappings: map<string, Field> := map[];
    var names: seq<string> := [];
    var fields: seq<string> := [];
    var primaryKey: Option<string> := None;
    var i := 0;
    while i < |attrs|
      invariant 0 <= i <= |attrs|
      invariant mappings == Mappings(attrs[..i])
      invariant names == Names(attrs[..i], AnyField)
      invariant fields == Names(attrs[..i], NonKeyField)
      invariant |Names(attrs[..i], KeyField)| <= 1
      invariant primaryKey == if |Names(attrs[..i], KeyField)| == 0 then None else Some(Names(attrs[..i], KeyField)[0])
    {
      assert attrs[..i + 1][..i] == attrs[..i];
      var (k, v) := attrs[i];
      if v.FieldAttr? {
        mappings := mappings[k := v.field];
        names := names + [k];
        if v.field.primaryKey {
          if primaryKey.Some? {
            NamesPrefix(attrs, i + 1, KeyField);
            return Failure(DuplicatePrimaryKey(k));
          }
          primaryKey := Some(k);
        } else {
          fields := fields + [k];
        }
      }
      i := i + 1;
    }
    assert attrs[..i] == attrs;
    if primaryKey.None? {
      return Failure(PrimaryKeyNotFound);
    }
    return Success(Collected(mappings, names, fields, primaryKey.value));
  }

  /** The `for k in mappings.keys(): attrs.pop(k)` pass. */
  method PopMapped(attrs: Attrs, names: seq<string>) returns (rest: Attrs)
    ensures rest == Without(attrs, SetOf(names))
  {
    rest := attrs;
    var j := 0;
    WithoutNothing(attrs);
    assert SetOf(names[..0]) == {};
    while j < |names|
      invariant 0 <= j <= |names|
      invariant rest == Without(attrs, SetOf(names[..j]))
    {
      WithoutAdd(attrs, SetOf(names[..j]), names[j]);
      assert SetOf(names[..j + 1]) == SetOf(names[..j]) + {names[j]} by {
        assert names[..j + 1] == names[..j] + [names[j]];
      }
      rest := RemoveKey(rest, names[j]);
      j := j + 1;
    }
    assert names[..j] == names;
  }

  /**
   * `ModelMetaclass.__new__`: one pass over `attrs` fills `mappings`, `fields` and the
   * primary key (failing at the second primary key), then every mapped name is popped
   * from `attrs` and the templates are rendered.
   */
  method NewModelClass(name: string, attrs: Attrs) returns (r: Result<ModelClass, SchemaError>)
    requires WellFormedAttrs(attrs)
    ensures r == Derive(name, attrs)
    ensures name != "Model" ==> (r.Success? <==> |Names(attrs, KeyField)| == 1)
  {
    if name == "Model" {
      return Success(ModelClass(name, attrs, None));
    }
    var tableName := TableName(name, attrs);
    var collected := CollectFields(attrs);
    if collected.Failure? {
      return Failure(collected.error);
    }
    var c := collected.value;
    var rest := PopMapped(attrs, c.names);
    WithoutFieldNames(attrs);
    var placeholders := CreateArgsString(|c.fields| + 1);
    var escaped := Escaped(c.fields);
    var pk := c.primaryKey;
    var table := Table(tableName, c.mappings, pk, c.fields,
      "select " + Quote(pk) + ", " + Join(", ", escaped) + " from " + Quote(tableName),
      "insert into " + Quote(tableName) + " (" + Join(", ", escaped) + ", " + Quote(pk) + ") values (" + placeholders + ")",
      "update " + Quote(tableName) + " set " + Join(", ", Assignments(c.mappings, c.fields)) + " where " + Quote(pk) + "=?",
      "delete from " + Quote(tableName) + " where " + Quote(pk) + "=?");
    assert table == MakeTable(tableName, c.mappings, pk, c.fields);
    return Success(ModelClass(name, rest, Some(table)));
  }

  // ---------------------------------------------------------------------------
  // Facts about the selection functions
  // ---------------------------------------------------------------------------

  /** The names selected from a prefix of `attrs` are a prefix of those selected from all of it. */
  lemma {:induction false} NamesPrefix(attrs: Attrs, n: nat, sel: Selector)
    requires n <= |attrs|
    ensures Names(attrs[..n], sel) <= Names(attrs, sel)
    decreases |attrs|
  {
    if n < |attrs| {
      var init := attrs[..|attrs| - 1];
      assert attrs[..n] == init[..n];
      NamesPrefix(init, n, sel);
    } else {
      assert attrs[..n] == attrs;
    }
  }

  /** A name is selected exactly when some selected attribute carries it. */
  lemma {:induction false} NamesMembers(attrs: Attrs, sel: Selector, k: string)
    ensures k in Names(attrs, sel) <==> exists i :: 0 <= i < |attrs| && attrs[i].0 == k && Selects(sel, attrs[i].1)
    decreases |attrs|
  {
    if |attrs| > 0 {
      var init := attrs[..|attrs| - 1];
      NamesMembers(init, sel, k);
      if k in Names(init, sel) {
        var i :| 0 <= i < |init| && init[i].0 == k && Selects(sel, init[i].1);
        assert attrs[i] == init[i];
      }
      if exists i :: 0 <= i < |attrs| && attrs[i].0 == k && Selects(sel, attrs[i].1) {
        var i :| 0 <= i < |attrs| && attrs[i].0 == k && Selects(sel, attrs[i].1);
        if i < |init| {
          assert init[i] == attrs[i];
        }
      }
    }
  }

  /** Selected names come in definition order: a sub-sequence of all the attribute names. */
  lemma {:induction false} NamesInOrder(attrs: Attrs, sel: Selector)
    ensures IsSubsequence(Names(attrs, sel), Names(attrs, AnyAttr))
    decreases |attrs|
  {
    if |attrs| > 0 {
      var init := attrs[..|attrs| - 1];
      var k := attrs[|attrs| - 1].0;
      NamesInOrder(init, sel);
      assert Names(attrs, AnyAttr) == Names(init, AnyAttr) + [k];
      if Selects(sel, attrs[|attrs| - 1].1) {
        assert Names(attrs, sel) == Names(init, sel) + [k];
        assert Names(attrs, sel)[..|Names(attrs, sel)| - 1] == Names(init, sel);
        assert Names(attrs, AnyAttr)[..|Names(attrs, AnyAttr)| - 1] == Names(init, AnyAttr);
      } else {
        assert Names(attrs, sel) == Names(init, sel);
        SubsequenceExtend(Names(init, sel), Names(init, AnyAttr), k);
      }
    }
  }

  /** With distinct keys, the names listed once per attribute are distinct. */
  lemma {:induction false} NamesDistinct(attrs: Attrs, sel: Selector)
    requires WellFormedAttrs(attrs)
    ensures Distinct(Names(attrs, sel))
    decreases |attrs|
  {
    if |attrs| > 0 {
      var init := attrs[..|attrs| - 1];
      var k := attrs[|attrs| - 1].0;
      NamesDistinct(init, sel);
      NamesMembers(init, sel, k);
      assert forall i :: 0 <= i < |init| ==> init[i] == attrs[i];
    }
  }

  /** `mappings` holds exactly the field attributes, each with its declared `Field`. */
  lemma {:induction false} MappingsFacts(attrs: Attrs)
    requires WellFormedAttrs(attrs)
    ensures forall i :: 0 <= i < |attrs| && attrs[i].1.FieldAttr? ==>
              attrs[i].0 in Mappings(attrs) && Mappings(attrs)[attrs[i].0] == attrs[i].1.field
    ensures forall k :: k in Mappings(attrs) <==> k in Names(attrs, AnyField)
    decreases |attrs|
  {
    if |attrs| > 0 {
      var init := attrs[..|attrs| - 1];
      MappingsFacts(init);
      forall i | 0 <= i < |attrs| && attrs[i].1.FieldAttr?
        ensures attrs[i].0 in Mappings(attrs) && Mappings(attrs)[attrs[i].0] == attrs[i].1.field
      {
        if i < |init| {
          assert init[i] == attrs[i];
        }
      }
    }
  }

  lemma {:induction false} WithoutNothing(attrs: Attrs)
    ensures Without(attrs, {}) == attrs
    decreases |attrs|
  {
    if |attrs| > 0 {
      WithoutNothing(attrs[..|attrs| - 1]);
    }
  }

  /** Taking out one more key is the same as taking out the larger set of keys. */
  lemma {:induction false} WithoutAdd(attrs: Attrs, ks: set<string>, k: string)
    ensures RemoveKey(Without(attrs, ks), k) == Without(attrs, ks + {k})
    decreases |attrs|
  {
    if |attrs| > 0 {
      var init := attrs[..|attrs| - 1];
      var last := attrs[|attrs| - 1];
      WithoutAdd(init, ks, k);
      var w := Without(init, ks);
      var tail := if last.0 in ks then [] else [last];
      WithoutConcat(w, tail, {k});
    }
  }

  lemma {:induction false} WithoutConcat(a: Attrs, b: Attrs, ks: set<string>)
    requires |b| <= 1
    ensures Without(a + b, ks) == Without(a, ks) + Without(b, ks)
  {
    if |b| == 0 {
      assert a + b == a;
    } else {
      assert (a + b)[..|a + b| - 1] == a;
      assert b[..0] == [];
    }
  }

  /** Popping exactly the field names leaves the non-field attributes. */
  lemma {:induction false} WithoutIsRest(attrs: Attrs, ks: set<string>)
    requires forall i :: 0 <= i < |attrs| ==> (attrs[i].1.FieldAttr? <==> attrs[i].0 in ks)
    ensures Without(attrs, ks) == Rest(attrs)
    decreases |attrs|
  {
    if |attrs| > 0 {
      var init := attrs[..|attrs| - 1];
      assert forall i :: 0 <= i < |init| ==> init[i] == attrs[i];
      WithoutIsRest(init, ks);
    }
  }

  lemma WithoutFieldNames(attrs: Attrs)
    requires WellFormedAttrs(attrs)
    ensures Without(attrs, SetOf(Names(attrs, AnyField))) == Rest(attrs)
  {
    var ks := SetOf(Names(attrs, AnyField));
    forall i | 0 <= i < |attrs|
      ensures attrs[i].1.FieldAttr? <==> attrs[i].0 in ks
    {
      NamesMembers(attrs, AnyField, attrs[i].0);
    }
    WithoutIsRest(attrs, ks);
  }

  /** The non-field attributes, and only they, stay in the class namespace, in order. */
  lemma {:induction false} RestFacts(attrs: Attrs)
    ensures forall e :: e in Rest(attrs) <==> e in attrs && !e.1.FieldAttr?
    ensures IsSubsequence(Rest(attrs), attrs)
    decreases |attrs|
  {
    if |attrs| > 0 {
      var init := attrs[..|attrs| - 1];
      var last := attrs[|attrs| - 1];
      RestFacts(init);
      assert attrs == init + [last];
      if last.1.FieldAttr? {
        assert Rest(attrs) == Rest(init);
        SubsequenceExtend(Rest(init), init, last);
      } else {
        assert Rest(attrs)[..|Rest(attrs)| - 1] == Rest(init);
      }
    }
  }

  lemma {:induction false} LookupFound(attrs: Attrs, key: string)
    requires WellFormedAttrs(attrs)
    ensures Lookup(attrs, key).Some? <==> exists i :: 0 <= i < |attrs| && attrs[i].0 == key
    ensures forall i :: 0 <= i < |attrs| && attrs[i].0 == key ==> Lookup(attrs, key) == Some(attrs[i].1)
    decreases |attrs|
  {
    if |attrs| > 0 {
      var init := attrs[..|attrs| - 1];
      assert forall i :: 0 <= i < |init| ==> init[i] == attrs[i];
      LookupFound(init, key);
    }
  }

  // ---------------------------------------------------------------------------
  // What the derivation guarantees
  // ---------------------------------------------------------------------------

  /**
   * The base class `Model` is passed through untouched. For any other class the
   * derivation succeeds exactly when one field is a primary key; a second primary
   * key fails naming that second attribute, and no primary key fails as well.
   */
  lemma DeriveOutcome(name: string, attrs: Attrs)
    ensures name == "Model" ==> Derive(name, attrs) == Success(ModelClass(name, attrs, None))
    ensures name != "Model" ==> (Derive(name, attrs).Success? <==> |Names(attrs, KeyField)| == 1)
    ensures name != "Model" && |Names(attrs, KeyField)| == 0 ==> Derive(name, attrs) == Failure(PrimaryKeyNotFound)
    ensures name != "Model" && |Names(attrs, KeyField)| >= 2 ==>
              exists i :: 0 <= i < |attrs| && Selects(KeyField, attrs[i].1)
                && Derive(name, attrs) == Failure(DuplicatePrimaryKey(attrs[i].0))
                && attrs[i].0 == Names(attrs, KeyField)[1] && |Names(attrs[..i], KeyField)| == 1
  {
    var keys := Names(attrs, KeyField);
    if name != "Model" && |keys| >= 2 {
      SecondKeyPosition(attrs);
    }
  }

  /** Where the second primary key sits: an attribute with exactly one primary key before it. */
  lemma SecondKeyPosition(attrs: Attrs)
    requires |Names(attrs, KeyField)| >= 2
    ensures exists i :: 0 <= i < |attrs| && Selects(KeyField, attrs[i].1)
              && attrs[i].0 == Names(attrs, KeyField)[1] && |Names(attrs[..i], KeyField)| == 1
  {
    var i := SecondKeyIndex(attrs);
  }

  lemma {:induction false} SecondKeyIndex(attrs: Attrs) returns (i: nat)
    requires |Names(attrs, KeyField)| >= 2
    ensures i < |attrs| && Selects(KeyField, attrs[i].1)
    ensures attrs[i].0 == Names(attrs, KeyField)[1] && |Names(attrs[..i], KeyField)| == 1
    decreases |attrs|
  {
    var init := attrs[..|attrs| - 1];
    if |Names(init, KeyField)| >= 2 {
      i := SecondKeyIndex(init);
      assert attrs[i] == init[i];
      assert attrs[..i] == init[..i];
    } else {
      i := |attrs| - 1;
      assert attrs[..i] == init;
    }
  }

  /** A successful derivation of a model class, taken apart. */
  lemma DeriveParts(name: string, attrs: Attrs)
    requires name != "Model" && Derive(name, attrs).Success?
    ensures |Names(attrs, KeyField)| == 1
    ensures var c := Derive(name, attrs).value;
      && c.name == name && c.attrs == Rest(attrs) && c.table.Some?
      && c.table.value == MakeTable(TableName(name, attrs), Mappings(attrs),
                                    Names(attrs, KeyField)[0], Names(attrs, NonKeyField))
  {
  }

  /** The table is named by a non-empty string `__table__`, and after the class otherwise. */
  lemma DeriveTableName(name: string, attrs: Attrs)
    requires WellFormedAttrs(attrs)
    requires name != "Model" && Derive(name, attrs).Success?
    ensures var t := Derive(name, attrs).value.table.value;
      (exists i, s :: 0 <= i < |attrs| && attrs[i] == ("__table__", Plain(Str(s))) && s != "") ==>
        exists i :: 0 <= i < |attrs| && attrs[i] == ("__table__", Plain(Str(t.name)))
    ensures var t := Derive(name, attrs).value.table.value;
      !(exists i, s :: 0 <= i < |attrs| && attrs[i] == ("__table__", Plain(Str(s))) && s != "") ==> t.name == name
  {
    DeriveParts(name, attrs);
    LookupFound(attrs, "__table__");
  }

  /** Every field attribute is in `mappings` with its `Field`, and nothing else is. */
  lemma DeriveMappings(name: string, attrs: Attrs)
    requires WellFormedAttrs(attrs)
    requires name != "Model" && Derive(name, attrs).Success?
    ensures var t := Derive(name, attrs).value.table.value;
      && (forall i :: 0 <= i < |attrs| && attrs[i].1.FieldAttr? ==>
            attrs[i].0 in t.mappings && t.mappings[attrs[i].0] == attrs[i].1.field)
      && (forall k :: k in t.mappings ==> exists i :: 0 <= i < |attrs| && attrs[i].0 == k && attrs[i].1.FieldAttr?)
  {
    DeriveParts(name, attrs);
    MappingsFacts(attrs);
    forall k | k in Mappings(attrs)
      ensures exists i :: 0 <= i < |attrs| && attrs[i].0 == k && attrs[i].1.FieldAttr?
    {
      NamesMembers(attrs, AnyField, k);
    }
  }

  /**
   * The primary key is a mapped primary-key field and is not in `fields`; `fields`
   * holds exactly the non-key field names, once each, in definition order.
   */
  lemma DeriveFields(name: string, attrs: Attrs)
    requires WellFormedAttrs(attrs)
    requires name != "Model" && Derive(name, attrs).Success?
    ensures var t := Derive(name, attrs).value.table.value;
      && t.primaryKey in t.mappings && t.mappings[t.primaryKey].primaryKey
      && t.primaryKey !in t.fields
      && (forall k :: k in t.fields <==> exists i :: 0 <= i < |attrs| && attrs[i].0 == k && Selects(NonKeyField, attrs[i].1))
      && IsSubsequence(t.fields, Names(attrs, AnyAttr))
      && Distinct(t.fields)
  {
    DeriveParts(name, attrs);
    KeyAndFields(attrs);
  }

  lemma KeyAndFields(attrs: Attrs)
    requires WellFormedAttrs(attrs) && |Names(attrs, KeyField)| == 1
    ensures var pk := Names(attrs, KeyField)[0];
      && pk in Mappings(attrs) && Mappings(attrs)[pk].primaryKey
      && pk !in Names(attrs, NonKeyField)
    ensures forall k :: k in Names(attrs, NonKeyField) <==>
              exists i :: 0 <= i < |attrs| && attrs[i].0 == k && Selects(NonKeyField, attrs[i].1)
    ensures IsSubsequence(Names(attrs, NonKeyField), Names(attrs, AnyAttr))
    ensures Distinct(Names(attrs, NonKeyField))
  {
    var pk := Names(attrs, KeyField)[0];
    MappingsFacts(attrs);
    NamesMembers(attrs, KeyField, pk);
    var p :| 0 <= p < |attrs| && attrs[p].0 == pk && Selects(KeyField, attrs[p].1);
    NamesMembers(attrs, NonKeyField, pk);
    forall k
      ensures k in Names(attrs, NonKeyField) <==>
              exists i :: 0 <= i < |attrs| && attrs[i].0 == k && Selects(NonKeyField, attrs[i].1)
    {
      NamesMembers(attrs, NonKeyField, k);
    }
    NamesInOrder(attrs, NonKeyField);
    NamesDistinct(attrs, NonKeyField);
  }

  /** After derivation no mapped name is left among the class attributes; every other attribute is. */
  lemma DeriveRemovesFields(name: string, attrs: Attrs)
    requires WellFormedAttrs(attrs)
    requires name != "Model" && Derive(name, attrs).Success?
    ensures var c := Derive(name, attrs).value;
      && (forall e :: e in c.attrs ==> e.0 !in c.table.value.mappings)
      && (forall e :: e in c.attrs <==> e in attrs && !e.1.FieldAttr?)
      && IsSubsequence(c.attrs, attrs)
  {
    DeriveKeeps(name, attrs);
    RestFacts(attrs);
    RestUnmapped(attrs);
  }

  /** A derived class keeps the non-field attributes and maps the field ones. */
  lemma DeriveKeeps(name: string, attrs: Attrs)
    requires name != "Model" && Derive(name, attrs).Success?
    ensures var c := Derive(name, attrs).value;
      c.attrs == Rest(attrs) && c.table.Some? && c.table.value.mappings == Mappings(attrs)
  {
    DeriveParts(name, attrs);
  }

  /** With distinct names, no attribute left after the fields are popped is mapped. */
  lemma RestUnmapped(attrs: Attrs)
    requires WellFormedAttrs(attrs)
    ensures forall e :: e in Rest(attrs) ==> e.0 !in Mappings(attrs)
  {
    RestFacts(attrs);
    MappingsFacts(attrs);
    forall e | e in Rest(attrs)
      ensures e.0 !in Mappings(attrs)
    {
      var i :| 0 <= i < |attrs| && attrs[i] == e;
      NamesMembers(attrs, AnyField, e.0);
    }
  }

  // ---------------------------------------------------------------------------
  // The SQL templates
  // ---------------------------------------------------------------------------

  /** No placeholder in an identifier: class-body names never contain `?`. */
  predicate MarkerFree(names: seq<string>) {
    forall i :: 0 <= i < |names| ==> Marker !in names[i]
  }

  /** Every identifier that a table's templates quote is free of `?`. */
  predicate TemplateNamesMarkerFree(table: string, mappings: map<string, Field>, pk: string, fields: seq<string>) {
    && Marker !in table && Marker !in pk && MarkerFree(fields)
    && (forall i :: 0 <= i < |fields| ==> Marker !in Column(mappings, fields[i]))
  }

  lemma {:induction false} EscapedMarkerFree(fields: seq<string>)
    requires MarkerFree(fields)
    ensures CountAll(Marker, Escaped(fields)) == 0
    decreases |fields|
  {
    if |fields| > 0 {
      assert Marker !in fields[0];
      assert Marker !in Quote(fields[0]);
      CountAbsent(Marker, Quote(fields[0]));
      assert MarkerFree(fields[1..]) by {
        forall i | 0 <= i < |fields[1..]| ensures Marker !in fields[1..][i] {
          assert fields[1..][i] == fields[i + 1];
        }
      }
      EscapedMarkerFree(fields[1..]);
    }
  }

  lemma {:induction false} AssignmentsCount(mappings: map<string, Field>, fields: seq<string>)
    requires forall i :: 0 <= i < |fields| ==> Marker !in Column(mappings, fields[i])
    ensures CountAll(Marker, Assignments(mappings, fields)) == |fields|
    decreases |fields|
  {
    if |fields| > 0 {
      var col := Column(mappings, fields[0]);
      assert Marker !in Quote(col);
      CountAbsent(Marker, Quote(col));
      CountConcat(Marker, Quote(col), "=?");
      assert forall i :: 0 <= i < |fields[1..]| ==> fields[1..][i] == fields[i + 1];
      AssignmentsCount(mappings, fields[1..]);
    }
  }

  /** The select template has no placeholder. */
  lemma SelectPlaceholders(table: string, pk: string, fields: seq<string>)
    requires Marker !in table && Marker !in pk && MarkerFree(fields)
    ensures Count(Marker, SelectSql(table, pk, fields)) == 0
  {
    ColumnListFree(fields);
    var sql := "select " + Quote(pk) + ", " + Join(", ", Escaped(fields)) + " from " + Quote(table);
    assert Marker !in sql;
    CountAbsent(Marker, sql);
  }

  /** The back-quoted, comma-separated column list of select and insert has no placeholder. */
  lemma ColumnListFree(fields: seq<string>)
    requires MarkerFree(fields)
    ensures Marker !in Join(", ", Escaped(fields))
  {
    assert Marker !in ", ";
    CountJoin(Marker, ", ", Escaped(fields));
    EscapedMarkerFree(fields);
    if Marker in Join(", ", Escaped(fields)) {
      CountPresent(Marker, Join(", ", Escaped(fields)));
    }
  }

  /** The insert template has one placeholder per non-key field plus one for the key. */
  lemma InsertPlaceholders(table: string, pk: string, fields: seq<string>)
    requires Marker !in table && Marker !in pk && MarkerFree(fields)
    ensures Count(Marker, InsertSql(table, pk, fields)) == |fields| + 1
  {
    ColumnListFree(fields);
    var prefix := "insert into " + Quote(table) + " (" + Join(", ", Escaped(fields)) + ", " + Quote(pk) + ") values (";
    var args := ArgsString(|fields| + 1);
    assert Marker !in prefix;
    CountAbsent(Marker, prefix);
    ArgsStringCount(|fields| + 1);
    CountConcat(Marker, prefix, args);
    assert Marker !in ")";
    CountAbsent(Marker, ")");
    CountConcat(Marker, prefix + args, ")");
    assert prefix + args + ")" == InsertSql(table, pk, fields);
  }

  /** The update template has one placeholder per `set` column plus one for the key. */
  lemma UpdatePlaceholders(table: string, mappings: map<string, Field>, pk: string, fields: seq<string>)
    requires Marker !in table && Marker !in pk
    requires forall i :: 0 <= i < |fields| ==> Marker !in Column(mappings, fields[i])
    ensures Count(Marker, UpdateSql(table, mappings, pk, fields)) == |fields| + 1
  {
    var sets := Join(", ", Assignments(mappings, fields));
    assert Marker !in ", ";
    CountJoin(Marker, ", ", Assignments(mappings, fields));
    AssignmentsCount(mappings, fields);
    var prefix := "update " + Quote(table) + " set ";
    var middle := " where " + Quote(pk);
    assert Marker !in prefix;
    assert Marker !in middle;
    CountAbsent(Marker, prefix);
    CountAbsent(Marker, middle);
    CountConcat(Marker, prefix, sets);
    CountConcat(Marker, prefix + sets, middle);
    CountConcat(Marker, prefix + sets + middle, "=?");
    assert prefix + sets + middle + "=?" == UpdateSql(table, mappings, pk, fields);
  }

  /** The delete template has the one placeholder for the key. */
  lemma DeletePlaceholders(table: string, pk: string)
    requires Marker !in table && Marker !in pk
    ensures Count(Marker, DeleteSql(table, pk)) == 1
  {
    var prefix := "delete from " + Quote(table) + " where " + Quote(pk);
    assert Marker !in prefix;
    CountAbsent(Marker, prefix);
    CountConcat(Marker, prefix, "=?");
    assert prefix + "=?" == DeleteSql(table, pk);
  }

  /**
   * Placeholder counts of the four templates of a table, which are the argument
   * counts the CRUD operations pass: select none, insert one per non-key field plus
   * one for the key, update one per `set` column plus one for the key, delete one.
   */
  lemma TemplatePlaceholders(t: Table)
    requires t == MakeTable(t.name, t.mappings, t.primaryKey, t.fields)
    requires TemplateNamesMarkerFree(t.name, t.mappings, t.primaryKey, t.fields)
    ensures Count(Marker, t.selectSql) == 0
    ensures Count(Marker, t.insertSql) == |t.fields| + 1
    ensures Count(Marker, t.updateSql) == |t.fields| + 1
    ensures Count(Marker, t.deleteSql) == 1
  {
    SelectPlaceholders(t.name, t.primaryKey, t.fields);
    InsertPlaceholders(t.name, t.primaryKey, t.fields);
    UpdatePlaceholders(t.name, t.mappings, t.primaryKey, t.fields);
    DeletePlaceholders(t.name, t.primaryKey);
  }

  /** A table as the derivation leaves it: key and fields mapped, templates rendered from them. */
  ghost predicate WellFormedTable(t: Table) {
    && t.primaryKey in t.mappings && t.mappings[t.primaryKey].primaryKey
    && t.primaryKey !in t.fields
    && (forall f :: f in t.fields ==> f in t.mappings && !t.mappings[f].primaryKey)
    && (forall k :: k in t.mappings ==> k == t.primaryKey || k in t.fields)
    && Distinct(t.fields)
    && t == MakeTable(t.name, t.mappings, t.primaryKey, t.fields)
  }

  /** Every derived table is well formed. */
  lemma DeriveWellFormed(name: string, attrs: Attrs)
    requires WellFormedAttrs(attrs)
    requires name != "Model" && Derive(name, attrs).Success?
    ensures WellFormedTable(Derive(name, attrs).value.table.value)
  {
    DeriveParts(name, attrs);
    KeyAndFields(attrs);
    MappingsFacts(attrs);
    var m := Mappings(attrs);
    var pk := Names(attrs, KeyField)[0];
    var fields := Names(attrs, NonKeyField);
    forall f | f in fields
      ensures f in m && !m[f].primaryKey
    {
      NamesMembers(attrs, NonKeyField, f);
      var i :| 0 <= i < |attrs| && attrs[i].0 == f && Selects(NonKeyField, attrs[i].1);
    }
    forall k | k in m
      ensures k == pk || k in fields
    {
      NamesMembers(attrs, AnyField, k);
      var i :| 0 <= i < |attrs| && attrs[i].0 == k && attrs[i].1.FieldAttr?;
      if attrs[i].1.field.primaryKey {
        NamesMembers(attrs, KeyField, k);
        assert Names(attrs, KeyField) == [pk];
      } else {
        NamesMembers(attrs, NonKeyField, k);
      }
    }
  }

  /**
   * A `User` with primary key `id` and fields `name`, `email` (the second one
   * renamed to column `mail`) keeps only its `__table__` attribute, takes its table
   * name from it, and lists the non-key fields in definition order.
   */
  lemma UserExample()
    ensures Derive("User", UserAttrs())
         == Success(ModelClass("User", [("__table__", Plain(Str("users")))],
                               Some(MakeTable("users", Mappings(UserAttrs()), "id", ["name", "email"]))))
  {
    UserSelections();
    assert TableName("User", UserAttrs()) == "users";
  }

  /** The attributes of `User` one at a time. */
  lemma UserSteps() returns (a1: Attrs, a2: Attrs, a3: Attrs)
    ensures a1 == [UserAttrs()[0]] && a2 == a1 + [UserAttrs()[1]] && a3 == a2 + [UserAttrs()[2]]
    ensures UserAttrs() == a3 + [UserAttrs()[3]]
  {
    var attrs := UserAttrs();
    a1, a2, a3 := [attrs[0]], [attrs[0], attrs[1]], [attrs[0], attrs[1], attrs[2]];
  }

  /** What the metaclass pass selects from `User`: the key, the non-key fields, the kept attributes. */
  lemma UserSelections()
    ensures Names(UserAttrs(), KeyField) == ["id"]
    ensures Names(UserAttrs(), NonKeyField) == ["name", "email"]
    ensures Rest(UserAttrs()) == [("__table__", Plain(Str("users")))]
    ensures Lookup(UserAttrs(), "__table__") == Some(Plain(Str("users")))
  {
    var attrs := UserAttrs();
    var a1, a2, a3 := UserSteps();
    SelectionSnoc([], attrs[0]);
    assert [] + [attrs[0]] == a1;
    SelectionSnoc(a1, attrs[1]);
    SelectionSnoc(a2, attrs[2]);
    SelectionSnoc(a3, attrs[3]);
  }

  /** The selections after one more attribute. */
  lemma SelectionSnoc(a: Attrs, e: (string, Attr))
    ensures Names(a + [e], KeyField) == Names(a, KeyField) + (if Selects(KeyField, e.1) then [e.0] else [])
    ensures Names(a + [e], NonKeyField) == Names(a, NonKeyField) + (if Selects(NonKeyField, e.1) then [e.0] else [])
    ensures Rest(a + [e]) == Rest(a) + (if e.1.FieldAttr? then [] else [e])
    ensures Lookup(a + [e], "__table__") == if e.0 == "__table__" then Some(e.1) else Lookup(a, "__table__")
  {
    assert (a + [e])[..|a|] == a;
  }

  /** The `mappings` of `User`: its three fields, the key included. */
  lemma UserMappings()
    ensures Mappings(UserAttrs()) == UserFields()
  {
    var attrs := UserAttrs();
    var a3, a2, a1 := attrs[..3], attrs[..2], attrs[..1];
    assert a3[..2] == a2 && a2[..1] == a1 && a1[..0] == [];
    assert Mappings(a1) == map[];
    assert Mappings(a2) == map["id" := attrs[1].1.field];
    assert Mappings(a3) == map["id" := attrs[1].1.field, "name" := attrs[2].1.field];
  }

  function UserFields(): map<string, Field> {
    map["id" := StringField(primaryKey := true, ddl := "varchar(50)"),
        "name" := StringField(),
        "email" := StringField(name := Some("mail"))]
  }

  lemma EscapedUser()
    ensures Join(", ", Escaped(["name", "email"])) == "`name`, `email`"
  {
    var fs: seq<string> := ["name", "email"];
    assert fs[1..] == ["email"] && fs[1..][1..] == [];
    assert Escaped(fs) == [Quote("name"), Quote("email")];
    assert Quote("name") == "`name`" && Quote("email") == "`email`";
    assert [Quote("name"), Quote("email")][1..] == [Quote("email")];
  }

  /** The `User` select template. */
  lemma UserSelect()
    ensures SelectSql("users", "id", ["name", "email"]) == "select `id`, `name`, `email` from `users`"
  {
    EscapedUser();
    assert Quote("id") == "`id`" && Quote("users") == "`users`";
    calc {
      SelectSql("users", "id", ["name", "email"]);
      "select " + Quote("id") + ", " + Join(", ", Escaped(["name", "email"])) + " from " + Quote("users");
      "select " + "`id`" + ", " + "`name`, `email`" + " from " + "`users`";
    }
  }

  /**
   * A model whose only field is its key: the select template keeps the comma after the
   * key column, the insert template's column list starts with a comma, and the update
   * template has an empty `set` list.
   */
  lemma KeyOnlyTemplates(table: string, mappings: map<string, Field>, pk: string)
    ensures SelectSql(table, pk, []) == "select " + Quote(pk) + ",  from " + Quote(table)
    ensures InsertSql(table, pk, []) == "insert into " + Quote(table) + " (, " + Quote(pk) + ") values (?)"
    ensures UpdateSql(table, mappings, pk, []) == "update " + Quote(table) + " set  where " + Quote(pk) + "=?"
  {
    assert Escaped([]) == [] && Assignments(mappings, []) == [];
    assert Markers(1) == [[Marker]] by {
      assert Markers(0) == [];
    }
    assert ArgsString(1) == "?";
  }

  /** The `User` delete template. */
  lemma UserDelete()
    ensures DeleteSql("users", "id") == "delete from `users` where `id`=?"
  {
    assert Quote("id") == "`id`" && Quote("users") == "`users`";
  }

  function UserAttrs(): Attrs {
    [("__table__", Plain(Str("users"))),
     ("id", FieldAttr(StringField(primaryKey := true, ddl := "varchar(50)"))),
     ("name", FieldAttr(StringField())),
     ("email", FieldAttr(StringField(name := Some("mail"))))]
  }
}
