/**
 * A `Model` instance (a dict of column values that also answers attribute access),
 * the database it talks to, and the class-level queries and instance-level writes
 * built from the templates the schema derivation rendered.
 */
module Records {
  import opened Wrappers
  import opened Values
  import opened Seqs
  import opened SqlText
  import opened Fields
  import opened Schema

  /** The exceptions the record layer raises itself. */
  datatype ModelError =
    | AttributeError(message: string)
    | KeyError(key: string)
    /** `ValueError('Invalid limit value: %s' % str(limit))`, carrying the rejected limit. */
    | ValueError(limit: Value)

  function NoAttributeMessage(key: string): string {
    "'Model' object has no attribute '" + key + "'"
  }

  /** `d.get(key)` on the record's dict: `None` when the key is missing. */
  function ValueOf(values: map<string, Value>, key: string): Value {
    if key in values then values[key] else Null
  }

  // ---------------------------------------------------------------------------
  // The database as seen through `select` and `execute`
  // ---------------------------------------------------------------------------

  /** A statement as handed to the driver, after the `?` to `%s` rewrite. */
  datatype Statement =
    | Query(sql: string, args: seq<Value>, size: nat)
    | Command(sql: string, args: seq<Value>)

  /** `rs[:size]` of `fetchmany(size)` when `size` is set, else `fetchall()`. */
  function Fetch(rows: seq<Row>, size: nat): (r: seq<Row>)
    ensures |r| == if size == 0 || |rows| <= size then |rows| else size
    ensures r == rows[..|r|]
  {
    if size == 0 || |rows| <= size then rows else rows[..size]
  }

  /**
   * The connection pool. What the server answers is outside the model: `answer`
   * and `affected` give the rows and the row count for a statement, given every
   * statement sent before it; `sent` records what was sent, in order.
   */
  class Database {
    const answer: (seq<Statement>, string, seq<Value>) -> seq<Row>
    const affected: (seq<Statement>, string, seq<Value>) -> int
    var sent: seq<Statement>

    constructor(answer: (seq<Statement>, string, seq<Value>) -> seq<Row>,
                affected: (seq<Statement>, string, seq<Value>) -> int)
      ensures this.answer == answer && this.affected == affected && sent == []
    {
      this.answer := answer;
      this.affected := affected;
      sent := [];
    }

    /** `select(sql, args, size)`: `size` 0 stands for `None`. */
    method Select(sql: string, args: seq<Value>, size: nat) returns (rows: seq<Row>)
      modifies this
      ensures sent == old(sent) + [Query(Rewrite(sql), args, size)]
      ensures rows == Fetch(answer(old(sent), Rewrite(sql), args), size)
    {
      var native := Rewrite(sql);
      rows := Fetch(answer(sent, native, args), size);
      sent := sent + [Query(native, args, size)];
    }

    /** `execute(sql, args)`: the affected row count. */
    method Execute(sql: string, args: seq<Value>) returns (n: int)
      modifies this
      ensures sent == old(sent) + [Command(Rewrite(sql), args)]
      ensures n == affected(old(sent), Rewrite(sql), args)
    {
      var native := Rewrite(sql);
      n := affected(sent, native, args);
      sent := sent + [Command(native, args)];
    }
  }

  // ---------------------------------------------------------------------------
  // Defaults
  // ---------------------------------------------------------------------------

  /**
   * What `getValueOrDefault(key)` returns: the stored value unless it is `None`,
   * else the field's default (invoked when it is callable), else `None`; a key
   * that is neither set nor mapped raises `KeyError`.
   */
  function Filled(values: map<string, Value>, mappings: map<string, Field>, key: string, invoke: Invoker)
    : (r: Result<Value, ModelError>)
    ensures r.Failure? <==> ValueOf(values, key) == Null && key !in mappings
    ensures r.Failure? ==> r.error == KeyError(key)
    ensures ValueOf(values, key) != Null ==> r == Success(ValueOf(values, key))
  {
    var value := ValueOf(values, key);
    if value != Null then Success(value)
    else if key !in mappings then Failure(KeyError(key))
    else if mappings[key].default.Present() then Success(DefaultValue(mappings[key].default, key, invoke))
    else Success(Null)
  }

  /** The record's dict after `getValueOrDefault(key)`: a default that was used is stored. */
  function AfterFill(values: map<string, Value>, mappings: map<string, Field>, key: string, invoke: Invoker)
    : map<string, Value>
  {
    if ValueOf(values, key) == Null && key in mappings && mappings[key].default.Present()
    then values[key := DefaultValue(mappings[key].default, key, invoke)]
    else values
  }

  /**
   * After `getValueOrDefault(key)`, reading `key` gives what the call returned, and
   * no other key is touched.
   */
  lemma FillStores(values: map<string, Value>, mappings: map<string, Field>, key: string, invoke: Invoker)
    requires Filled(values, mappings, key, invoke).Success?
    ensures ValueOf(AfterFill(values, mappings, key, invoke), key) == Filled(values, mappings, key, invoke).value
    ensures forall k :: k != key ==> ValueOf(AfterFill(values, mappings, key, invoke), k) == ValueOf(values, k)
    ensures forall k :: k != key ==> (k in AfterFill(values, mappings, key, invoke) <==> k in values)
  {
  }

  /**
   * Once a default other than `None` has been stored, asking again returns the same
   * value, invokes no default (whatever a generator would yield now) and changes nothing.
   */
  lemma FillIdempotent(values: map<string, Value>, mappings: map<string, Field>, key: string,
                       invoke: Invoker, later: Invoker)
    requires Filled(values, mappings, key, invoke).Success?
    requires Filled(values, mappings, key, invoke).value != Null
    ensures var after := AfterFill(values, mappings, key, invoke);
      && Filled(after, mappings, key, later) == Filled(values, mappings, key, invoke)
      && AfterFill(after, mappings, key, later) == after
  {
    FillStores(values, mappings, key, invoke);
  }

  /** Every one of `keys` names a field. */
  predicate Mapped(keys: seq<string>, mappings: map<string, Field>) {
    forall i :: 0 <= i < |keys| ==> keys[i] in mappings
  }

  /** The keys `save()` fills: the non-key fields, then the key. */
  function SaveKeys(t: Table): seq<string> {
    t.fields + [t.primaryKey]
  }

  /** In a derived table the keys `save()` fills are distinct fields. */
  lemma SaveKeysFacts(t: Table)
    requires WellFormedTable(t)
    ensures Distinct(SaveKeys(t)) && Mapped(SaveKeys(t), t.mappings)
  {
    var keys := SaveKeys(t);
    forall i, j | 0 <= i < j < |keys|
      ensures keys[i] != keys[j]
    {
      if j == |t.fields| {
        assert keys[i] in t.fields;
      }
    }
    forall i | 0 <= i < |keys|
      ensures keys[i] in t.mappings
    {
      if i < |t.fields| {
        assert keys[i] in t.fields;
      }
    }
  }

  /** Filling one more key continues from the dict the earlier keys left. */
  lemma FillAppend(values: map<string, Value>, mappings: map<string, Field>, keys: seq<string>, last: string,
                   invoke: Invoker)
    requires Mapped(keys, mappings) && last in mappings
    ensures Mapped(keys + [last], mappings)
    ensures var now := FillValues(values, mappings, keys, invoke);
      && FillArgs(values, mappings, keys + [last], invoke)
           == FillArgs(values, mappings, keys, invoke) + [Filled(now, mappings, last, invoke).value]
      && FillValues(values, mappings, keys + [last], invoke) == AfterFill(now, mappings, last, invoke)
  {
    assert (keys + [last])[..|keys|] == keys;
    assert forall j :: 0 <= j < |keys| ==> keys[j] == (keys + [last])[j];
  }

  /**
   * Two unset fields that share a callable default each call it: in one pass they
   * receive the readings taken for each of them, which need not be equal.
   */
  lemma SharedGeneratorReadings(values: map<string, Value>, mappings: map<string, Field>,
                                k1: string, k2: string, g: string, invoke: Invoker)
    requires k1 != k2 && k1 in mappings && k2 in mappings
    requires mappings[k1].default == Generator(g) && mappings[k2].default == Generator(g)
    requires ValueOf(values, k1) == Null && ValueOf(values, k2) == Null
    ensures Mapped([k1, k2], mappings)
    ensures FillArgs(values, mappings, [k1, k2], invoke) == [invoke(g, k1), invoke(g, k2)]
  {
    var keys := [k1, k2];
    assert Distinct(keys);
    FillIndependent(values, mappings, keys, invoke);
    assert FillArgs(values, mappings, keys, invoke)[0] == invoke(g, k1);
    assert FillArgs(values, mappings, keys, invoke)[1] == invoke(g, k2);
  }

  /** The values `getValueOrDefault` yields for `keys`, called in order. */
  function FillArgs(values: map<string, Value>, mappings: map<string, Field>, keys: seq<string>, invoke: Invoker)
    : (r: seq<Value>)
    requires Mapped(keys, mappings)
    ensures |r| == |keys|
  {
    if |keys| == 0 then []
    else
      var init := keys[..|keys| - 1];
      var now := FillValues(values, mappings, init, invoke);
      FillArgs(values, mappings, init, invoke) + [Filled(now, mappings, keys[|keys| - 1], invoke).value]
  }

  /** The record's dict after `getValueOrDefault` was called for each of `keys` in order. */
  function FillValues(values: map<string, Value>, mappings: map<string, Field>, keys: seq<string>, invoke: Invoker)
    : map<string, Value>
  {
    if |keys| == 0 then values
    else AfterFill(FillValues(values, mappings, keys[..|keys| - 1], invoke), mappings, keys[|keys| - 1], invoke)
  }

  /**
   * Filling distinct mapped keys one after the other yields, for each key, what a
   * single `getValueOrDefault` on the original record would; afterwards each key
   * reads as the value sent, and every other key is as before.
   */
  lemma {:induction false} FillIndependent(values: map<string, Value>, mappings: map<string, Field>,
                                           keys: seq<string>, invoke: Invoker)
    requires Distinct(keys) && Mapped(keys, mappings)
    ensures forall i :: 0 <= i < |keys| ==>
      FillArgs(values, mappings, keys, invoke)[i] == Filled(values, mappings, keys[i], invoke).value
    ensures forall i :: 0 <= i < |keys| ==>
      ValueOf(FillValues(values, mappings, keys, invoke), keys[i]) == FillArgs(values, mappings, keys, invoke)[i]
    ensures forall k :: k !in keys ==>
      && (k in FillValues(values, mappings, keys, invoke) <==> k in values)
      && ValueOf(FillValues(values, mappings, keys, invoke), k) == ValueOf(values, k)
    decreases |keys|
  {
    if |keys| > 0 {
      var init := keys[..|keys| - 1];
      var last := keys[|keys| - 1];
      assert Distinct(init);
      assert last !in init;
      FillIndependent(values, mappings, init, invoke);
      var now := FillValues(values, mappings, init, invoke);
      assert ValueOf(now, last) == ValueOf(values, last);
      FillStores(now, mappings, last, invoke);
      forall i | 0 <= i < |init|
        ensures ValueOf(FillValues(values, mappings, keys, invoke), keys[i]) == FillArgs(values, mappings, keys, invoke)[i]
      {
        assert keys[i] == init[i] && keys[i] != last;
      }
      forall k | k !in keys
        ensures k !in init && k != last
      {
        assert k != keys[|keys| - 1];
      }
    }
  }

  /** `list(map(self.getValue, keys))`. */
  function ValuesOf(values: map<string, Value>, keys: seq<string>): (r: seq<Value>)
    ensures |r| == |keys|
    ensures forall i :: 0 <= i < |keys| ==> r[i] == ValueOf(values, keys[i])
  {
    if |keys| == 0 then [] else ValuesOf(values, keys[..|keys| - 1]) + [ValueOf(values, keys[|keys| - 1])]
  }

  // ---------------------------------------------------------------------------
  // The record
  // ---------------------------------------------------------------------------

  /**
   * An instance of a model class: the class's derived table, and the dict of
   * column values the instance is.
   */
  class Record {
    const table: Table
    var values: map<string, Value>

    /** `cls(**kw)`. */
    constructor(table: Table, kw: map<string, Value>)
      ensures this.table == table && values == kw
    {
      this.table := table;
      values := kw;
    }

    /** The class was built by the schema derivation. */
    ghost predicate Valid() {
      WellFormedTable(table)
    }

    /** `__getattr__(key)`: the stored value, or `AttributeError`. */
    function GetAttr(key: string): (r: Result<Value, ModelError>)
      reads this
      ensures r.Success? <==> key in values
      ensures r.Success? ==> r.value == values[key]
      ensures r.Failure? ==> r.error == AttributeError(NoAttributeMessage(key))
    {
      if key in values then Success(values[key]) else Failure(AttributeError(NoAttributeMessage(key)))
    }

    /** `__setattr__(key, value)`: stored in the dict. */
    method SetAttr(key: string, value: Value)
      modifies this
      ensures values == old(values)[key := value]
    {
      values := values[key := value];
    }

    /**
     * `getValue(key)`: `getattr(self, key, None)` for a key that names no attribute of
     * the class, where it falls through to `__getattr__` and so reads the dict.
     */
    function GetValue(key: string): (v: Value)
      reads this
      ensures v == ValueOf(values, key)
    {
      match GetAttr(key)
      case Success(x) => x
      case Failure(_) => Null
    }

    /** `getValueOrDefault(key)`. */
    method GetValueOrDefault(key: string, invoke: Invoker) returns (r: Result<Value, ModelError>)
      modifies this
      ensures r == Filled(old(values), table.mappings, key, invoke)
      ensures values == AfterFill(old(values), table.mappings, key, invoke)
    {
      var value := GetValue(key);
      if value == Null {
        if key !in table.mappings {
          return Failure(KeyError(key));
        }
        var field := table.mappings[key];
        if field.default.Present() {
          value := DefaultValue(field.default, key, invoke);
          SetAttr(key, value);
        }
      }
      return Success(value);
    }

    /**
     * `save()`: fills every non-key field and then the key with
     * `getValueOrDefault`, and executes the insert template with those values. The
     * affected-row count only feeds a logged warning; nothing is returned.
     */
    method Save(db: Database, invoke: Invoker)
      requires Valid()
      modifies this, db
      ensures Mapped(SaveKeys(table), table.mappings)
      ensures var args := FillArgs(old(values), table.mappings, SaveKeys(table), invoke);
        && values == FillValues(old(values), table.mappings, SaveKeys(table), invoke)
        && db.sent == old(db.sent) + [Command(Rewrite(table.insertSql), args)]
    {
      SaveKeysFacts(table);
      ghost var start := values;
      var m := table.mappings;
      var fields := table.fields;
      ghost var keys := SaveKeys(table);
      assert Mapped(fields, m) by {
        forall j | 0 <= j < |fields| ensures fields[j] in m {
          assert fields[j] == keys[j];
        }
      }
      var args: seq<Value> := [];
      var i := 0;
      while i < |fields|
        invariant 0 <= i <= |fields|
        invariant Mapped(fields[..i], m)
        invariant args == FillArgs(start, m, fields[..i], invoke)
        invariant values == FillValues(start, m, fields[..i], invoke)
        invariant db.sent == old(db.sent)
      {
        assert fields[..i + 1][..i] == fields[..i];
        var v := GetValueOrDefault(fields[i], invoke);
        args := args + [v.value];
        i := i + 1;
      }
      assert fields[..i] == fields;
      FillAppend(start, m, fields, table.primaryKey, invoke);
      var v := GetValueOrDefault(table.primaryKey, invoke);
      args := args + [v.value];
      var rows := db.Execute(table.insertSql, args);
    }

    /** `update()`: executes the update template with the stored fields, then the key. */
    method Update(db: Database)
      modifies db
      ensures var args := ValuesOf(values, table.fields + [table.primaryKey]);
        db.sent == old(db.sent) + [Command(Rewrite(table.updateSql), args)]
    {
      var args := ValuesOf(values, table.fields);
      args := args + [GetValue(table.primaryKey)];
      assert (table.fields + [table.primaryKey])[..|table.fields|] == table.fields;
      var rows := db.Execute(table.updateSql, args);
    }

    /** `remove()`: executes the delete template with the stored key. */
    method Remove(db: Database)
      modifies db
      ensures db.sent == old(db.sent) + [Command(Rewrite(table.deleteSql), [ValueOf(values, table.primaryKey)])]
    {
      var args := [GetValue(table.primaryKey)];
      var rows := db.Execute(table.deleteSql, args);
    }
  }

  /**
   * `save()` sends one value per placeholder of the insert template, each being what
   * `getValueOrDefault` gives on the record as it was, and leaves each saved column
   * reading as the value sent.
   */
  lemma SaveArgsMatch(t: Table, values: map<string, Value>, invoke: Invoker)
    requires WellFormedTable(t)
    requires TemplateNamesMarkerFree(t.name, t.mappings, t.primaryKey, t.fields)
    ensures Mapped(SaveKeys(t), t.mappings)
    ensures var keys := SaveKeys(t);
      var args := FillArgs(values, t.mappings, keys, invoke);
      && |args| == Count(Marker, t.insertSql)
      && (forall i :: 0 <= i < |keys| ==> args[i] == Filled(values, t.mappings, keys[i], invoke).value)
      && (forall i :: 0 <= i < |keys| ==> ValueOf(FillValues(values, t.mappings, keys, invoke), keys[i]) == args[i])
  {
    SaveKeysFacts(t);
    var keys := SaveKeys(t);
    FillIndependent(values, t.mappings, keys, invoke);
    assert Count(Marker, t.insertSql) == |t.fields| + 1 by {
      TemplatePlaceholders(t);
    }
  }

  /** `update()` and `remove()` send one value per placeholder of their templates. */
  lemma WriteArgsMatch(t: Table, values: map<string, Value>)
    requires t == MakeTable(t.name, t.mappings, t.primaryKey, t.fields)
    requires TemplateNamesMarkerFree(t.name, t.mappings, t.primaryKey, t.fields)
    ensures |ValuesOf(values, t.fields + [t.primaryKey])| == Count(Marker, t.updateSql)
    ensures |[ValueOf(values, t.primaryKey)]| == Count(Marker, t.deleteSql)
  {
    TemplatePlaceholders(t);
  }

  // ---------------------------------------------------------------------------
  // Class-level queries
  // ---------------------------------------------------------------------------

  /** A caller-owned `args` list that `findAll` appends to. */
  class ArgList {
    var items: seq<Value>

    constructor(items: seq<Value>)
      ensures this.items == items
    {
      this.items := items;
    }
  }

  /** The `limit ...` clause words, or the `ValueError` for a limit of the wrong shape. */
  function LimitClause(limit: Value): Result<seq<string>, ModelError> {
    if limit == Null then Success([])
    else if IsInt(limit) then Success(["limit", "?"])
    else if limit.Tuple? && |limit.items| == 2 then Success(["limit", "?, ?"])
    else Failure(ValueError(limit))
  }

  /** What the limit appends to `args`. */
  function LimitArgs(limit: Value): seq<Value> {
    if limit == Null then []
    else if IsInt(limit) then [limit]
    else if limit.Tuple? && |limit.items| == 2 then limit.items
    else []
  }

  /** The clause words of `findAll` before the limit; `""` stands for an absent or empty clause. */
  function Clauses(select: string, where: string, orderBy: string): seq<string> {
    [select] + Pair("where", where) + Pair("order by", orderBy)
  }

  /** `sql.append(kw); sql.append(x)` when `x` is set. */
  function Pair(kw: string, x: string): seq<string> {
    if x != "" then [kw, x] else []
  }

  /** `' '.join(sql)` in `findAll`. */
  function FindAllSql(select: string, where: string, orderBy: string, limit: Value): Result<string, ModelError> {
    match LimitClause(limit)
    case Failure(e) => Failure(e)
    case Success(lc) => Success(Join(" ", Clauses(select, where, orderBy) + lc))
  }

  /** `findAll` rejects exactly the limits that are neither `None`, an `int` nor a pair. */
  lemma FindAllRejects(select: string, where: string, orderBy: string, limit: Value)
    ensures FindAllSql(select, where, orderBy, limit).Failure?
      <==> limit != Null && !IsInt(limit) && !(limit.Tuple? && |limit.items| == 2)
    ensures FindAllSql(select, where, orderBy, limit).Failure? ==>
      FindAllSql(select, where, orderBy, limit).error == ValueError(limit)
  {
  }

  /** `" " + kw + " " + x` when `x` is set, else nothing. */
  function Optional(kw: string, x: string): string {
    if x != "" then " " + kw + " " + x else ""
  }

  lemma JoinPair(parts: seq<string>, kw: string, x: string)
    requires |parts| >= 1
    ensures Join(" ", parts + [kw, x]) == Join(" ", parts) + " " + kw + " " + x
  {
    var longer := parts + [kw];
    assert longer + [x] == parts + [kw, x];
    calc {
      Join(" ", parts + [kw, x]);
      Join(" ", longer + [x]);
      { JoinAppend(" ", longer, x); }
      Join(" ", longer) + " " + x;
      { JoinAppend(" ", parts, kw); }
      Join(" ", parts) + " " + kw + " " + x;
    }
  }

  /** The placeholders the limit clause writes: one for an `int`, two for a pair. */
  function LimitMarks(limit: Value): string {
    if limit == Null then ""
    else if IsInt(limit) then "?"
    else if limit.Tuple? && |limit.items| == 2 then "?, ?"
    else ""
  }

  /** A clause appended to the word list shows up at the end of the joined text. */
  lemma PairText(parts: seq<string>, kw: string, x: string)
    requires |parts| >= 1
    ensures Join(" ", parts + Pair(kw, x)) == Join(" ", parts) + Optional(kw, x)
  {
    if x != "" {
      JoinPair(parts, kw, x);
    } else {
      assert parts + Pair(kw, x) == parts;
    }
  }

  /** The clauses before the limit spelled out: each present only when given. */
  lemma ClausesText(select: string, where: string, orderBy: string)
    ensures Join(" ", Clauses(select, where, orderBy)) == select + Optional("where", where) + Optional("order by", orderBy)
  {
    var p0: seq<string> := [select];
    assert Join(" ", p0) == select;
    PairText(p0, "where", where);
    PairText(p0 + Pair("where", where), "order by", orderBy);
  }

  /**
   * The `findAll` statement spelled out: the select template, then `where`, then
   * `order by`, then `limit`, each present only when given.
   */
  lemma FindAllText(select: string, where: string, orderBy: string, limit: Value)
    requires LimitClause(limit).Success?
    ensures FindAllSql(select, where, orderBy, limit).value
      == select + Optional("where", where) + Optional("order by", orderBy) + Optional("limit", LimitMarks(limit))
  {
    var p := Clauses(select, where, orderBy);
    ClausesText(select, where, orderBy);
    var lc := LimitClause(limit).value;
    if limit == Null {
      assert p + lc == p;
    } else {
      var marks := LimitMarks(limit);
      var front := select + Optional("where", where) + Optional("order by", orderBy);
      assert lc == ["limit", marks] && marks != "";
      calc {
        Join(" ", p + lc);
        { JoinPair(p, "limit", marks); }
        Join(" ", p) + " " + "limit" + " " + marks;
        front + " " + "limit" + " " + marks;
        { assert " " + "limit" + " " == " limit "; }
        front + Optional("limit", marks);
      }
    }
  }

  /** `` `kw` `` holds no placeholder; what it joins keeps its own placeholders. */
  lemma OptionalCount(kw: string, x: string)
    requires Marker !in kw
    ensures Count(Marker, Optional(kw, x)) == Count(Marker, x)
  {
    if x != "" {
      var head := " " + kw + " ";
      assert Marker !in head;
      CountAbsent(Marker, head);
      CountConcat(Marker, head, x);
      assert head + x == Optional(kw, x);
    } else {
      assert Optional(kw, x) == x;
    }
  }

  /**
   * The limit adds exactly as many placeholders as values it appends to `args`, so
   * the statement's placeholders are the template's, the caller's `where` and
   * `order by` ones, and one per limit value.
   */
  lemma FindAllPlaceholders(select: string, where: string, orderBy: string, limit: Value)
    requires LimitClause(limit).Success?
    ensures Count(Marker, FindAllSql(select, where, orderBy, limit).value)
      == Count(Marker, select) + Count(Marker, where) + Count(Marker, orderBy) + |LimitArgs(limit)|
  {
    FindAllText(select, where, orderBy, limit);
    var w := Optional("where", where);
    var o := Optional("order by", orderBy);
    var marks := LimitMarks(limit);
    var l := Optional("limit", marks);
    OptionalCount("where", where);
    OptionalCount("order by", orderBy);
    OptionalCount("limit", marks);
    assert Count(Marker, marks) == |LimitArgs(limit)| by {
      if limit.Tuple? && !IsInt(limit) {
        assert marks == "?" + ", " + "?";
        assert Marker !in ", ";
        CountAbsent(Marker, ", ");
        CountConcat(Marker, "?", ", ");
        CountConcat(Marker, "?" + ", ", "?");
      }
    }
    CountConcat(Marker, select, w);
    CountConcat(Marker, select + w, o);
    CountConcat(Marker, select + w + o, l);
  }

  /** The records `[cls(**r) for r in rs]`. */
  ghost predicate Loaded(recs: seq<Record>, cls: Table, rows: seq<Row>)
    reads recs
  {
    && |recs| == |rows|
    && forall i :: 0 <= i < |recs| ==> recs[i].table == cls && recs[i].values == rows[i]
  }

  /** `[cls(**r) for r in rs]`: one new record per row. */
  method Load(cls: Table, rows: seq<Row>) returns (recs: seq<Record>)
    ensures Loaded(recs, cls, rows)
    ensures forall i :: 0 <= i < |recs| ==> fresh(recs[i])
  {
    recs := [];
    var i := 0;
    while i < |rows|
      invariant 0 <= i <= |rows|
      invariant |recs| == i
      invariant forall j :: 0 <= j < i ==> fresh(recs[j]) && recs[j].table == cls && recs[j].values == rows[j]
    {
      var rec := new Record(cls, rows[i]);
      recs := recs + [rec];
      i := i + 1;
    }
  }

  /**
   * `findAll(where, args, orderBy=..., limit=...)` on the class whose table is
   * `cls`. `args == null` is the default `None`; a list passed in is extended in
   * place with the limit values.
   */
  method FindAll(cls: Table, db: Database, where: string, args: ArgList?, orderBy: string, limit: Value)
    returns (r: Result<seq<Record>, ModelError>)
    modifies db, args
    ensures var before := if args == null then [] else old(args.items);
      match FindAllSql(cls.selectSql, where, orderBy, limit)
      case Failure(e) =>
        && r == Failure(e) && db.sent == old(db.sent) && (args != null ==> args.items == before)
      case Success(sql) =>
        var sent := before + LimitArgs(limit);
        && db.sent == old(db.sent) + [Query(Rewrite(sql), sent, 0)]
        && (args != null ==> args.items == sent)
        && r.Success? && Loaded(r.value, cls, db.answer(old(db.sent), Rewrite(sql), sent))
        && (forall i :: 0 <= i < |r.value| ==> fresh(r.value[i]))
  {
    var sql := [cls.selectSql];
    if where != "" {
      sql := sql + ["where", where];
    }
    assert sql == [cls.selectSql] + Pair("where", where);
    var list := args;
    if list == null {
      list := new ArgList([]);
    }
    if orderBy != "" {
      sql := sql + ["order by", orderBy];
    }
    assert sql == Clauses(cls.selectSql, where, orderBy);
    if limit != Null {
      sql := sql + ["limit"];
      if IsInt(limit) {
        sql := sql + ["?"];
        list.items := list.items + [limit];
      } else if limit.Tuple? && |limit.items| == 2 {
        sql := sql + ["?, ?"];
        list.items := list.items + limit.items;
      } else {
        return Failure(ValueError(limit));
      }
    }
    assert sql == Clauses(cls.selectSql, where, orderBy) + LimitClause(limit).value;
    assert FindAllSql(cls.selectSql, where, orderBy, limit) == Success(Join(" ", sql));
    assert list.items == (if args == null then [] else old(args.items)) + LimitArgs(limit);
    var rs := db.Select(Join(" ", sql), list.items, 0);
    var recs := Load(cls, rs);
    return Success(recs);
  }

  /** `select %s _num_ from `table` [where ...]` of `findNumber`. */
  function NumberSql(selectField: string, table: string, where: string): string {
    Join(" ", ["select " + selectField + " _num_ from " + Quote(table)] + (if where != "" then ["where", where] else []))
  }

  /** `findNumber`'s answer from the fetched rows: `None` for no row, else the first row's `_num_`. */
  function NumberOf(rows: seq<Row>): Result<Option<Value>, ModelError> {
    if |rows| == 0 then Success(None)
    else if "_num_" in rows[0] then Success(Some(rows[0]["_num_"]))
    else Failure(KeyError("_num_"))
  }

  /** Fetching one row does not change the `findNumber` answer, whatever the server returns. */
  lemma NumberOfFirstRow(rows: seq<Row>)
    ensures |Fetch(rows, 1)| <= 1
    ensures NumberOf(Fetch(rows, 1)) == NumberOf(rows)
    ensures NumberOf(rows).Failure? <==> |rows| > 0 && "_num_" !in rows[0]
  {
  }

  /** `findNumber(selectField, where, args)`; `args` `None` and `[]` are the same to the driver. */
  method FindNumber(cls: Table, db: Database, selectField: string, where: string, args: seq<Value>)
    returns (r: Result<Option<Value>, ModelError>)
    modifies db
    ensures var sql := NumberSql(selectField, cls.name, where);
      && db.sent == old(db.sent) + [Query(Rewrite(sql), args, 1)]
      && r == NumberOf(db.answer(old(db.sent), Rewrite(sql), args))
  {
    var sql := ["select " + selectField + " _num_ from " + Quote(cls.name)];
    if where != "" {
      sql := sql + ["where", where];
    }
    var rs := db.Select(Join(" ", sql), args, 1);
    assert NumberOf(rs) == NumberOf(db.answer(old(db.sent), Rewrite(Join(" ", sql)), args)) by {
      NumberOfFirstRow(db.answer(old(db.sent), Rewrite(Join(" ", sql)), args));
    }
    if |rs| == 0 {
      return Success(None);
    }
    if "_num_" !in rs[0] {
      return Failure(KeyError("_num_"));
    }
    return Success(Some(rs[0]["_num_"]));
  }

  /** `'%s where `%s`=?' % (cls.__select__, cls.__primary_key__)`. */
  function FindSql(t: Table): string {
    t.selectSql + " where " + Quote(t.primaryKey) + "=?"
  }

  /** The lookup by key has exactly the one placeholder for the key `find` passes. */
  lemma FindPlaceholders(t: Table)
    requires t == MakeTable(t.name, t.mappings, t.primaryKey, t.fields)
    requires TemplateNamesMarkerFree(t.name, t.mappings, t.primaryKey, t.fields)
    ensures Count(Marker, FindSql(t)) == 1
  {
    TemplatePlaceholders(t);
    var tail := " where " + Quote(t.primaryKey);
    assert Marker !in tail;
    CountAbsent(Marker, tail);
    CountConcat(Marker, t.selectSql, tail);
    CountConcat(Marker, t.selectSql + tail, "=?");
    assert t.selectSql + tail + "=?" == FindSql(t);
  }

  /** `find(pk)`: the record of the first row, or `None`. */
  method Find(cls: Table, db: Database, pk: Value) returns (r: Option<Record>)
    modifies db
    ensures db.sent == old(db.sent) + [Query(Rewrite(FindSql(cls)), [pk], 1)]
    ensures var rows := db.answer(old(db.sent), Rewrite(FindSql(cls)), [pk]);
      && (r.None? <==> |rows| == 0)
      && (r.Some? ==> fresh(r.value) && r.value.table == cls && r.value.values == rows[0])
  {
    var rs := db.Select(FindSql(cls), [pk], 1);
    if |rs| == 0 {
      return None;
    }
    var rec := new Record(cls, rs[0]);
    return Some(rec);
  }
}
