# lxf web core in Dafny

A model of the two core modules of a small Python blog backend built on `aiohttp` and `aiomysql`.

**The ORM (`www/orm.py`).**
- `Field` and its subclasses describe columns.
- When a `Model` subclass is created, `ModelMetaclass.__new__` does three things:
  - it collects the class body's fields;
  - it checks there is exactly one primary key;
  - it renders the `select`, `insert`, `update` and `delete` templates with `?` placeholders.
- A `Model` instance is a dict that also answers attribute access. `getValueOrDefault` stores a field's default into the record the first time it is used.
- The class-level queries (`findAll`, `findNumber`, `find`) and the instance-level writes (`save`, `update`, `remove`) build SQL text and argument lists.
- These are handed to `select`/`execute`, which rewrite every `?` to `%s` for the driver.

**The web glue (`www/lxfweb.py`).**
- `@get`/`@post` tag a URL function with its HTTP method and path.
- Five classifiers read a function's signature:
  - its keyword-only parameters;
  - the required ones among them;
  - whether it has keyword-only parameters at all;
  - whether it has `**kw`;
  - whether it has a `request` parameter, which must come last.
- `RequestHandler` stores that classification. On each call, `RequestHandler` turns a request into the keyword arguments of the URL function, or into a `400 Bad Request`.
- `add_route` and `add_routes` register the tagged functions of a module.

**Modules.**
- `Wrappers`: `Option` and `Result`.
- `Values`: the Python values a record holds.
- `SqlText`: `', '.join`, placeholder counting, `create_args_string` and the `?`→`%s` rewrite.
- `Seqs`: order-preserving subsequences and distinctness.
- `Fields`: `Field` and its subclasses.
- `Schema`: `ModelMetaclass.__new__` and the four templates.
- `Records`: the record class, the database oracle, and the queries and writes.
- `Signatures`: the signature classifiers.
- `Handler`: `RequestHandler`.
- `Routes`: the decorators and route registration.

**How the model stands in for the runtime.**
- The database is a class, `Records.Database`. It holds two oracle functions, from the statements already sent plus the rewritten SQL and arguments, to the rows or the affected-row count. It also keeps the history of statements sent.
- A callable field default is an identifier. A supplied `invoke` function gives the value that calling it yields for a given field, one reading per field.
- Calling a URL function is a supplied `run` function from its code and keyword arguments to a result or an `APIError`.
- Importing a module and listing it with `dir()` is a supplied `load` function from the module reference to the attribute listing.

## Model

| member | source | states |
|---|---|---|
| `SqlText.CreateArgsString` | www/orm.py:58-62 | Returns `num` `?` markers joined by `", "`; the count of `?` is exactly `num` (0 for `num <= 0`), and the result is empty exactly when `num <= 0`. |
| `SqlText.MarkersCount` | www/orm.py:59-61 | The list the loop builds holds exactly `max(num, 0)` markers. |
| `SqlText.ArgsStringCount` | www/orm.py:58-62 | The joined placeholder string contains exactly `max(num, 0)` `?` characters. |
| `SqlText.ArgsStringEmpty` | www/orm.py:58-62 | The placeholder string is empty exactly when `num <= 0`. |
| `SqlText.ArgsStringStep` | www/orm.py:58-62 | One marker is `"?"`. Each further marker appends `", ?"`. The text for `num >= 1` has length `3*num - 2`. |
| `SqlText.Markers` | www/orm.py:59-61 | The list `L` has `max(num, 0)` entries, each `"?"`. |
| `SqlText.RewriteFacts` | www/orm.py:36 | After `sql.replace('?', '%s')`: no `?` is left, each `?` became one extra `%`, and the text grew by one character per `?`. |
| `SqlText.RewriteConcat` | www/orm.py:51 | The rewrite distributes over concatenation, so it can be applied to each part of a statement. |
| `SqlText.RewriteWithoutMarkers` | www/orm.py:36 | Text without `?` is passed to the driver unchanged. |
| `Fields.FieldKinds` | www/orm.py:75-98 | Each subclass fixes its column type (`varchar(100)` by default, `boolean`, `bigint`, `real`, `text`), never makes `BooleanField`/`TextField` a key, and has the subclass's defaults (`None`, `False`, `0`, `0.0`). |
| `Schema.Escaped` | www/orm.py:130 | One back-quoted name per non-key field, in order. |
| `Schema.Assignments` | www/orm.py:141 | One `` `col`=? `` per non-key field, in order. The column is the field's `name` override, else its attribute name. |
| `Schema.NewModelClass` | www/orm.py:102-143 | The imperative metaclass loop produces exactly the derivation `Derive`. For a class other than `Model`, it succeeds exactly when exactly one field is a primary key. |
| `Schema.CollectFields` | www/orm.py:115-127 | The loop over the class body raises for a second primary key, naming it, and raises "primary key not found" without one. Otherwise it returns the mappings, the mapped names, the non-key names in order, and the key. |
| `Schema.PopMapped` | www/orm.py:128-129 | Popping every mapped name leaves exactly the attributes whose names are not mapped. |
| `Schema.DeriveOutcome` | www/orm.py:106-127 | `Model` itself is passed through untouched. Otherwise derivation succeeds exactly when one primary key is declared. With none it fails as "primary key not found". A second key fails with the name of that second attribute, which has exactly one key before it. |
| `Schema.DeriveParts` | www/orm.py:109-143 | A successful derivation keeps the class name. It keeps the non-field attributes and builds the table from the table name, the mappings, the single key and the non-key names. |
| `Schema.DeriveTableName` | www/orm.py:109 | The table is named by a non-empty string `__table__` when one is declared, and after the class otherwise. |
| `Schema.DeriveMappings` | www/orm.py:115-118 | Every `Field` attribute is in `mappings` with its own `Field`, and `mappings` holds nothing else. |
| `Schema.DeriveFields` | www/orm.py:119-125 | The primary key is a mapped key field and is not in `fields`. `fields` holds exactly the non-key field names, in declaration order, once each. |
| `Schema.DeriveRemovesFields` | www/orm.py:128-129 | No mapped name is left among the class attributes. Every non-field attribute stays, in order. |
| `Schema.DeriveWellFormed` | www/orm.py:115-143 | A derived table satisfies these invariants, which the record layer relies on: the key is mapped and is a key; the fields are mapped non-keys, distinct and cover the other mapped names; the templates are those of its parts. |
| `Schema.NamesInOrder` | www/orm.py:115-125 | Collected names (keys, non-keys, fields) keep the attribute order of the class body. |
| `Schema.NamesDistinct` | www/orm.py:115-125 | Collected names are distinct, because class-body names are. |
| `Schema.RestFacts` | www/orm.py:128-129 | The attributes that survive the pops are exactly the non-field ones, in their original order. |
| `Schema.SelectPlaceholders` | www/orm.py:139 | The select template has no placeholder. |
| `Schema.InsertPlaceholders` | www/orm.py:140 | The insert template has `len(fields) + 1` placeholders. |
| `Schema.UpdatePlaceholders` | www/orm.py:141 | The update template has one placeholder per non-key field plus one for the key. |
| `Schema.DeletePlaceholders` | www/orm.py:142 | The delete template has exactly one placeholder. |
| `Schema.TemplatePlaceholders` | www/orm.py:139-142 | For a derived table, the four templates carry 0, `len(fields)+1`, `len(fields)+1` and 1 placeholders. |
| `Schema.UserExample` | www/orm.py:102-143 | For a `User` class (key `id`, fields `name` and `email`, `__table__ = 'users'`), only `__table__` is kept. The table is `users`, and the fields are `name`, `email` in order. |
| `Schema.UserMappings` | www/orm.py:115-118 | For that `User` class, `mappings` holds its three fields, the key included. |
| `Schema.UserSelections` | www/orm.py:109-129 | For that `User` class, the key is `id`, the non-key fields are `name` then `email`, only `__table__` survives the pops, and `__table__` reads `users`. |
| `Schema.UserSelect` | www/orm.py:139 | For that `User` class, the select template is ``select `id`, `name`, `email` from `users` ``. |
| `Schema.UserDelete` | www/orm.py:142 | For that `User` class, the delete template is ``delete from `users` where `id`=?``. |
| `Schema.KeyOnlyTemplates` | www/orm.py:139-141 | For a model whose only field is its key, the select template keeps the comma after the key column (``select `pk`,  from ...``), the insert template's column list starts with a comma (``(, `pk`)``), and the update template has an empty `set` list. |
| `Records.Fetch` | www/orm.py:37-40 | `fetchmany(size)` gives the first `size` rows; with no size, `fetchall()` gives all rows. |
| `Records.Database.Select` | www/orm.py:31-43 | Sends the statement with every `?` rewritten to `%s`, records it, and returns the fetched rows of the oracle's answer. |
| `Records.Database.Execute` | www/orm.py:46-56 | Sends the rewritten statement, records it, and returns the oracle's affected-row count. |
| `Records.Record.GetAttr` | www/orm.py:150-154 | Succeeds exactly when the key is in the dict, with its value. Otherwise it raises `AttributeError` with the `'Model' object has no attribute` message. |
| `Records.Record.SetAttr` | www/orm.py:156-157 | The dict is updated at that key, with nothing else changed. |
| `Records.Record.GetValue` | www/orm.py:159-160 | Returns the stored value, or `None` for a missing key, and stores nothing. |
| `Records.Filled` | www/orm.py:162-170 | A stored non-`None` value is returned unchanged. A missing or `None` value of an unmapped key raises `KeyError`. Nothing else fails. |
| `Records.Record.GetValueOrDefault` | www/orm.py:162-170 | Returns what `Filled` gives and leaves the dict as `AfterFill`: a default other than `None` (called when callable) is stored, and nothing else changes. |
| `Records.FillStores` | www/orm.py:163-170 | After the call, reading the key gives what it returned, and every other key is as before. |
| `Records.FillIdempotent` | www/orm.py:163-170 | Once a non-`None` default is stored, a second call returns the same value whatever a generator would yield now, and changes nothing. |
| `Records.SaveKeysFacts` | www/orm.py:225-226 | For a derived table, the save order (non-key fields, then the key) is distinct and mapped. |
| `Records.FillArgs` | www/orm.py:225-226 | One argument per key, in order. |
| `Records.FillIndependent` | www/orm.py:225-226 | Filling distinct keys one after another gives each key the value `getValueOrDefault` gives alone, stores exactly that value, and leaves other keys alone. |
| `Records.ValuesOf` | www/orm.py:233-234 | One stored value (or `None`) per key, in order. |
| `Records.Record.Save` | www/orm.py:224-229 | Fills the non-key fields, then the key, and executes the insert template with exactly those values. The record ends holding the stored defaults. Nothing is returned: the affected-row count only feeds a log warning. |
| `Records.SharedGeneratorReadings` | www/orm.py:162-170 | Two unset fields that share a callable default each call it, so one `save` can receive a different reading for each. |
| `Records.SaveArgsMatch` | www/orm.py:225-227 | `save` sends as many values as the insert template has placeholders. Each value is what `getValueOrDefault` gives, and each saved column then reads as the value sent. |
| `Records.Record.Update` | www/orm.py:232-237 | Executes the update template with the raw stored values of the non-key fields and then the key (`None` if unset). |
| `Records.Record.Remove` | www/orm.py:240-244 | Executes the delete template with only the stored key. |
| `Records.WriteArgsMatch` | www/orm.py:232-242 | `update` and `remove` send as many values as their templates have placeholders. |
| `Records.FindAllRejects` | www/orm.py:187-197 | `findAll` raises `ValueError` exactly for a limit that is neither `None`, an `int` nor a 2-tuple. |
| `Records.FindAllText` | www/orm.py:177-198 | The statement is the select template, then `where ...`, then `order by ...`, then `limit ?` or `limit ?, ?`, each present only when given. |
| `Records.ClausesText` | www/orm.py:177-186 | The `where` and `order by` clauses follow the select template in that order, each only when set. |
| `Records.FindAllPlaceholders` | www/orm.py:187-198 | The statement's placeholders are the template's, plus the caller's `where` and `order by` ones, plus one per limit value `findAll` appends. |
| `Records.Load` | www/orm.py:199 | One new record per row, in order, each holding that row. |
| `Records.FindAll` | www/orm.py:175-199 | A bad limit raises before anything is sent. Otherwise it sends the statement with the caller's args extended in place by the limit values (a fresh list for `None`) and returns one new record per row. |
| `Records.NumberOfFirstRow` | www/orm.py:209-212 | Fetching a single row does not change the answer: `None` for no row, else the first row's `_num_` (`KeyError` when the column is missing). |
| `Records.FindNumber` | www/orm.py:203-212 | Sends `select <field> _num_ from `table`` with an optional `where`, asking for one row, and returns `None` or the first row's `_num_`. |
| `Records.FindPlaceholders` | www/orm.py:218 | The lookup by key has exactly the one placeholder for the key `find` passes. |
| `Records.Find` | www/orm.py:216-221 | Sends `<select> where `pk`=?` with `[pk]` for one row. It returns `None` exactly when no row comes back, else a new record holding the first row. |
| `Signatures.GetNamedKwArgs` | www/lxfweb.py:44-50 | Returns every keyword-only parameter name, in signature order. |
| `Signatures.GetRequiredKwArgs` | www/lxfweb.py:36-42 | Returns every keyword-only parameter name without a default, in signature order. |
| `Signatures.NamedMembers` | www/lxfweb.py:44-50 | A name is listed exactly when some keyword-only parameter has it. |
| `Signatures.RequiredMembers` | www/lxfweb.py:36-42 | A name is listed exactly when some keyword-only parameter without default has it. |
| `Signatures.RequiredWithinNamed` | www/lxfweb.py:36-50 | The required names are an order-preserving subsequence of the named ones. |
| `Signatures.HasNamedKwArgs` | www/lxfweb.py:52-56 | True exactly when some parameter is keyword-only. |
| `Signatures.HasVarKwArg` | www/lxfweb.py:58-62 | True exactly when some parameter is `**kw`. |
| `Signatures.NamedFlag` | www/lxfweb.py:52-56 | `has_named_kw_args` holds exactly when the named list is non-empty, and required names imply it. |
| `Signatures.HasRequestArg` | www/lxfweb.py:64-74 | Raises exactly when a parameter other than `*args`, keyword-only or `**kw` follows one called `request`. Otherwise it returns whether a `request` parameter exists. |
| `Signatures.RequestMisplacedPairs` | www/lxfweb.py:68-73 | The parameter-by-parameter definition of a misplaced `request` holds exactly when some `request` parameter is followed by a parameter of another name whose kind is not `*args`, keyword-only or `**kw`. |
| `Handler.Lower` | www/lxfweb.py:94 | `lower()` keeps the length and folds each character. |
| `Handler.FirstMissing` | www/lxfweb.py:129-132 | Missing nothing exactly when every name is present. Otherwise it names the first absent one. |
| `Handler.RequestHandler.constructor` | www/lxfweb.py:78-85 | Stores the function and the five classification results. |
| `Handler.NewRequestHandler` | www/lxfweb.py:78-85 | Raises exactly when `has_request_arg` raises. Otherwise the new handler holds the function and flags that agree with the classifiers. |
| `Handler.RequestHandler.Call` | www/lxfweb.py:88-138 | The step-by-step `__call__` returns exactly the response of the binding `Bind`, followed by running the function. An `APIError` becomes the error dict. |
| `Handler.ReadSource` | www/lxfweb.py:89-110 | Reads the keyword arguments exactly as `BodySource` defines them: from the body by content type for POST, from the query string for GET, with the three `400` messages. |
| `Handler.GatherArgs` | www/lxfweb.py:111-127 | Builds exactly the arguments that `Gathered` defines from what was read. |
| `Handler.CheckRequired` | www/lxfweb.py:129-132 | Returns the first required name that is absent, or none. |
| `Handler.QueryArgs` | www/lxfweb.py:106-110 | Binds every query name to its first value. |
| `Handler.KeepNamed` | www/lxfweb.py:116-120 | The copy holds exactly the entries of `kw` that the named list names. |
| `Handler.MergeMatchInfo` | www/lxfweb.py:122-125 | Every path variable is set, overwriting a same-named argument. |
| `Handler.PathOnly` | www/lxfweb.py:90 | A handler without `**kw`, keyword-only or required parameters is called with exactly the path variables (and the request when it asks for it), whatever the method, content type, body or query string. |
| `Handler.PostRejections` | www/lxfweb.py:91-104 | For POST, three cases give a `400`: a missing content type ("Missing Content-Type."), a non-object JSON body ("JSON body must be object."), or any other content type ("Unsupported Content-Type: ..."). |
| `Handler.PostBodies` | www/lxfweb.py:95-102 | A JSON object, or a urlencoded or multipart form, becomes the keyword-argument source. |
| `Handler.ContentTypeCase` | www/lxfweb.py:94-100 | Content types are matched after lower-casing: two spellings that lower-case alike bind alike. |
| `Handler.GetQuery` | www/lxfweb.py:105-112 | For GET, a non-empty query string binds each name to its first value. An empty one falls back to the path variables. |
| `Handler.FilterUnnamed` | www/lxfweb.py:114-120 | Without `**kw` but with keyword-only parameters, body or query names outside the named list are dropped. The named ones keep their value unless a path variable or the request takes the name. |
| `Handler.VarKwKeepsAll` | www/lxfweb.py:114-120 | With `**kw`, every body or query name is passed on. |
| `Handler.PathWins` | www/lxfweb.py:122-125 | Path variables overwrite same-named body or query arguments. |
| `Handler.FallbackUnfiltered` | www/lxfweb.py:111-112 | With neither body nor query arguments, exactly the path variables (plus `request`) are passed, unfiltered. |
| `Handler.RequestInjected` | www/lxfweb.py:126-127 | A handler that declares `request` receives the request under that name. |
| `Handler.RequiredChecked` | www/lxfweb.py:129-132 | The call goes ahead exactly when every required name is present. Otherwise the `400` names the first missing required name. |
| `Routes.Get` | www/lxfweb.py:10-21 | The wrapper keeps name, signature and code, and is tagged `GET` and the path. |
| `Routes.Post` | www/lxfweb.py:23-34 | The wrapper keeps name, signature and code, and is tagged `POST` and the path. |
| `Routes.Router.constructor` | www/lxfweb.py:145-153 | A new router has no routes. |
| `Routes.AddRoute` | www/lxfweb.py:145-153 | Raises when either tag is `None`, and the handler's error when the signature misplaces `request`; in both cases nothing is added. Otherwise one route is appended, serving the function under its tags with a new handler. |
| `Routes.Selected` | www/lxfweb.py:162-170 | At most one selected function per attribute. |
| `Routes.SelectedMembers` | www/lxfweb.py:162-170 | A function is selected exactly when it comes from an attribute that is public, callable, and has a truthy method and a truthy path. |
| `Routes.DecoratedSelected` | www/lxfweb.py:10-34 | A public function decorated with `@get` or `@post` and a non-empty path is selected for registration. |
| `Routes.FirstRefused` | www/lxfweb.py:169-170 | The first selected function whose signature `add_route` refuses, or the end. |
| `Routes.RFind` | www/lxfweb.py:156 | `rfind('.')`: `-1` or the position of a `.` with none after it. |
| `Routes.ModuleOf` | www/lxfweb.py:156-161 | A name without `.` is a top-level module. Otherwise the package and the last component rejoin to the name, and the component has no `.`. |
| `Routes.RefusedHere` | www/lxfweb.py:162-170 | When the registrable attribute at a position is refused after an accepted prefix, that function is the first refusal of the whole selection. |
| `Routes.AddRoutes` | www/lxfweb.py:155-170 | Registers the selected functions in listing order. It stops with the error at the first one refused, keeping the routes added before it; the new routes each serve their function with a new handler. |

## Left out

- The connection pool, cursors and every other network call are left out. `select` and `execute` are an oracle (`Records.Database`) that sees the rewritten SQL.
- `asyncio` coroutines, `yield from` and the `asyncio.coroutine` wrapping in `add_route` are left out because they are scheduling, not logic.
- All logging is left out, including the warnings when an insert, update or delete affects a row count other than 1. It has no other effect. `save`, `update` and `remove` return `None`, so the modelled methods return nothing and the count stays a local.
- `Field.__str__` is left out. It only feeds log messages.
- Exceptions are modelled as `Result` failures that carry the offending value rather than the formatted message. This covers `ValueError` for a limit or a signature, `StandardError` for the schema and `KeyError`; only the `AttributeError` message is spelled out.
- `StandardError` does not exist in Python 3, so the schema checks actually raise `NameError`. The model only records that creating the class fails, and why.
- Only a non-empty string `__table__` names the table. Other truthy non-string values are not modelled.
- A `__table__` inherited from a base class is not looked up. `__new__` reads only the new class body's own attributes, and so does the model.
- `Records.Record.GetAttr`: Python attribute lookup first finds class attributes and methods. Only the dict lookup that `__getattr__` implements is modelled.
- `Records.Record.GetValue`, `Records.Record.GetValueOrDefault`, `Records.Record.Save`, `Records.Record.Update`: `getattr(self, key, None)` returns a class attribute or method when a field is named like one (`update`, `values`, `items`, `keys`, `get`, `pop`, ...). The source then sees a value that is not `None`, applies no default, and sends the bound method as an SQL argument. The model always reads the dict, so it matches the source only for field names that name no attribute of `dict` or `Model`.
- Field default values are opaque. Floating point is not modelled (`0.0` is an opaque value).
- A callable default is modelled by an identifier. The value each call yields is an input indexed by the identifier and the field it fills, so separate fields get separate readings.
- `Handler.Lower` folds ASCII letters only: Unicode case mapping is not modelled.
- `where`, `orderBy` and `selectField` are strings, with `""` standing for an absent (falsy) clause. `findNumber`'s `args=None` is the empty list, which the driver treats alike.
- JSON decoding, form parsing and `parse_qs` are inputs already parsed. Duplicate form keys and the `keep_blank_values` decoding are not modelled.
- `inspect.signature` is modelled as an explicit parameter list.
- `__import__`, `getattr` on the package, and `dir()` are one supplied function returning the attribute listing. Its order, alphabetical under `dir()`, is taken as given.
- `callable()` is modelled by a listing entry being a function.
- `Signatures.HasNamedKwArgs`, `Signatures.HasVarKwArg`: the source returns `True` or falls off the end with `None`. The model returns `false` for `None`, which every caller uses only as a truth value.
- Exceptions other than `APIError` raised by a URL function propagate in the source and are not modelled. The URL function returns a result or raises `APIError`.
- The `aiohttp` router itself is left out. Duplicate registrations and path syntax are not checked, and the router is a list of the routes added. `add_static` is left out.
- The commented-out second implementation at the end of `www/lxfweb.py` is dead code and is not modelled.
- `www/test_model.py` and `www/for_test.py` are demonstration scripts that talk to a live database. They are not part of this model.
