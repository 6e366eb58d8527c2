/** Column declarations of a model class: `Field` and its five subclasses. */
module Fields {
  import opened Wrappers
  import opened Values

  /**
   * A field's `default`: a plain value (`Constant(Null)` is Python's `None`, meaning
   * "no default") or a zero-argument callable, named by `id`, that is invoked
   * each time a default is needed.
   */
  datatype Default = Constant(v: Value) | Generator(id: string) {
    /** `field.default is not None`. */
    predicate Present() {
      this != Constant(Null)
    }
  }

  /**
   * What calling the generator `id` yields when `getValueOrDefault` asks it for the
   * default of field `key`. Calling code cannot see inside a generator, so the model
   * receives these readings as an input, one per field: two fields sharing a
   * callable default (say `time.time`) may read different values in one `save`.
   */
  type Invoker = (string, string) -> Value

  /**
   * `Field(name, column_type, primary_key, default)`. `name` is the column-name
   * override (`None` by default); it is used only by the update template.
   */
  datatype Field = Field(name: Option<string>, columnType: string, primaryKey: bool, default: Default)

  /** What `field.default() if callable(field.default) else field.default` evaluates to. */
  function DefaultValue(d: Default, key: string, invoke: Invoker): Value {
    match d
    case Constant(v) => v
    case Generator(id) => invoke(id, key)
  }

  /** `StringField(name=None, primary_key=False, default=None, ddl='varchar(100)')`. */
  function StringField(name: Option<string> := None, primaryKey: bool := false,
                       default: Default := Constant(Null), ddl: string := "varchar(100)"): Field
  {
    Field(name, ddl, primaryKey, default)
  }

  /** `BooleanField(name=None, default=False)`: never a primary key. */
  function BooleanField(name: Option<string> := None, default: Default := Constant(Bool(false))): Field {
    Field(name, "boolean", false, default)
  }

  /** `IntegerField(name=None, primary_key=False, default=0)`. */
  function IntegerField(name: Option<string> := None, primaryKey: bool := false,
                        default: Default := Constant(Int(0))): Field
  {
    Field(name, "bigint", primaryKey, default)
  }

  /** `FloatField(name=None, primary_key=False, default=0.0)`; `0.0` is kept as an opaque value. */
  function FloatField(name: Option<string> := None, primaryKey: bool := false,
                      default: Default := Constant(Opaque("0.0"))): Field
  {
    Field(name, "real", primaryKey, default)
  }

  /** `TextField(name=None, default=None)`: never a primary key. */
  function TextField(name: Option<string> := None, default: Default := Constant(Null)): Field {
    Field(name, "text", false, default)
  }

  /**
   * The subclasses fix the column type (a string column takes its `ddl`), only the
   * string, integer and float kinds can be a primary key, and with their default
   * arguments a string or text column has no default while boolean, integer and
   * float columns default to `False`, `0` and `0.0`.
   */
  lemma FieldKinds(name: Option<string>, pk: bool, d: Default, ddl: string)
    ensures StringField(name, pk, d, ddl) == Field(name, ddl, pk, d)
    ensures BooleanField(name, d).columnType == "boolean" && !BooleanField(name, d).primaryKey
    ensures IntegerField(name, pk, d).columnType == "bigint" && IntegerField(name, pk, d).primaryKey == pk
    ensures FloatField(name, pk, d).columnType == "real" && FloatField(name, pk, d).primaryKey == pk
    ensures TextField(name, d).columnType == "text" && !TextField(name, d).primaryKey
    ensures StringField().columnType == "varchar(100)" && !StringField().default.Present()
    ensures !TextField().default.Present()
    ensures BooleanField().default == Constant(Bool(false))
    ensures IntegerField().default == Constant(Int(0))
    ensures FloatField().default == Constant(Opaque("0.0"))
    ensures !StringField().primaryKey && !IntegerField().primaryKey && !FloatField().primaryKey
  {
  }
}
