/**
 * Route registration: the `@get`/`@post` decorators that tag a URL function, and
 * `add_route`/`add_routes`, which turn tagged functions of a module into routes.
 */
module Routes {
  import opened Wrappers
  import opened Signatures
  import opened Handler

  /**
   * `@get(path)`: the wrapper keeps the function's name and signature
   * (`functools.wraps`), runs the same code, and is tagged `GET` and `path`.
   */
  function Get(path: string, f: Callable): (w: Callable)
    ensures w.httpMethod == Some("GET") && w.route == Some(path)
    ensures w.name == f.name && w.signature == f.signature && w.body == f.body
  {
    f.(httpMethod := Some("GET"), route := Some(path))
  }

  /** `@post(path)`: as `@get`, tagged `POST`. */
  function Post(path: string, f: Callable): (w: Callable)
    ensures w.httpMethod == Some("POST") && w.route == Some(path)
    ensures w.name == f.name && w.signature == f.signature && w.body == f.body
  {
    f.(httpMethod := Some("POST"), route := Some(path))
  }

  /** Why a route was not added. */
  datatype RouteError =
    /** `ValueError('@get or @post not defined in %s.' % str(fn))`. */
    | MissingTags(handler: string)
    /** The function names `request` before a positional parameter. */
    | BadSignature(cause: SignatureError)

  /** One registered route: method, path and the handler that serves it. */
  datatype Route = Route(httpMethod: string, path: string, handler: RequestHandler)

  /** The application's router; `routes` lists what `add_route` registered, in order. */
  class Router {
    var routes: seq<Route>

    constructor()
      ensures routes == []
    {
      routes := [];
    }
  }

  /** `route` serves `fn` under its tags, with the flags read off its signature. */
  ghost predicate Serves(route: Route, fn: Callable) {
    && fn.httpMethod.Some? && fn.route.Some?
    && route.httpMethod == fn.httpMethod.value && route.path == fn.route.value
    && route.handler.fn == fn && route.handler.Flagged() == FlagsOf(fn.signature)
  }

  /** `add_route(app, fn)`. */
  method AddRoute(router: Router, fn: Callable) returns (r: Result<(), RouteError>)
    modifies router
    ensures fn.httpMethod.None? || fn.route.None? ==> r == Failure(MissingTags(fn.name))
    ensures fn.httpMethod.Some? && fn.route.Some? && RequestMisplaced(fn.signature)
      ==> r == Failure(BadSignature(RequestNotLast(fn.name)))
    ensures r.Failure? ==> router.routes == old(router.routes)
    ensures r.Success? <==> fn.httpMethod.Some? && fn.route.Some? && !RequestMisplaced(fn.signature)
    ensures r.Success? ==>
      && |router.routes| == |old(router.routes)| + 1
      && router.routes[..|old(router.routes)|] == old(router.routes)
      && Serves(router.routes[|old(router.routes)|], fn)
      && fresh(router.routes[|old(router.routes)|].handler)
  {
    if fn.route.None? || fn.httpMethod.None? {
      return Failure(MissingTags(fn.name));
    }
    var h := NewRequestHandler(fn);
    if h.Failure? {
      return Failure(BadSignature(h.error));
    }
    router.routes := router.routes + [Route(fn.httpMethod.value, fn.route.value, h.value)];
    return Success(());
  }

  // ---------------------------------------------------------------------------
  // Registering a module
  // ---------------------------------------------------------------------------

  /** A module attribute: a function, or anything that is not callable. */
  datatype Member = Function(fn: Callable) | NotCallable

  /** `dir(mod)` paired with the attributes, in the order listed. */
  type Listing = seq<(string, Member)>

  /** A tag is truthy: present and not the empty string. */
  predicate Truthy(tag: Option<string>) {
    tag.Some? && tag.value != ""
  }

  /** `add_routes` registers a public callable whose method and path are both truthy. */
  predicate Registrable(attr: (string, Member)) {
    && !StartsWith(attr.0, "_")
    && attr.1.Function?
    && Truthy(attr.1.fn.httpMethod) && Truthy(attr.1.fn.route)
  }

  /** The functions `add_routes` hands to `add_route`, in listing order. */
  function Selected(attrs: Listing): (r: seq<Callable>)
    ensures |r| <= |attrs|
  {
    if |attrs| == 0 then []
    else
      var last := attrs[|attrs| - 1];
      Selected(attrs[..|attrs| - 1]) + (if Registrable(last) then [last.1.fn] else [])
  }

  /** The position of the first function whose signature `add_route` refuses, or the length. */
  function FirstRefused(fns: seq<Callable>): (k: nat)
    ensures k <= |fns|
    ensures forall j :: 0 <= j < k ==> !RequestMisplaced(fns[j].signature)
    ensures k < |fns| ==> RequestMisplaced(fns[k].signature)
  {
    if |fns| == 0 then 0
    else if RequestMisplaced(fns[0].signature) then 0
    else 1 + FirstRefused(fns[1..])
  }

  /** How `module_name` is imported: a top-level module, or `getattr(package, name)`. */
  datatype ModuleRef = TopLevel(name: string) | Submodule(package: string, name: string)

  /** `s.rfind(c)`: the last position of `c`, or `-1`. */
  function RFind(s: string, c: char): (r: int)
    ensures -1 <= r < |s|
    ensures r >= 0 ==> s[r] == c
    ensures forall j :: r < j < |s| ==> s[j] != c
  {
    if |s| == 0 then -1
    else if s[|s| - 1] == c then |s| - 1
    else RFind(s[..|s| - 1], c)
  }

  /** The split `add_routes` makes at the last `.` of the module name. */
  function ModuleOf(moduleName: string): (m: ModuleRef)
    ensures m.TopLevel? <==> '.' !in moduleName
    ensures m.TopLevel? ==> m.name == moduleName
    ensures m.Submodule? ==> m.package + "." + m.name == moduleName && '.' !in m.name
  {
    var n := RFind(moduleName, '.');
    if n == -1 then TopLevel(moduleName)
    else
      var name := moduleName[n + 1..];
      assert moduleName == moduleName[..n] + "." + name;
      assert forall j :: 0 <= j < |name| ==> name[j] == moduleName[n + 1 + j];
      Submodule(moduleName[..n], name)
  }

  /** Selecting from a listing split in two selects from each part. */
  lemma {:induction false} SelectedConcat(a: Listing, b: Listing)
    ensures Selected(a + b) == Selected(a) + Selected(b)
    decreases |b|
  {
    if |b| == 0 {
      assert a + b == a;
    } else {
      var b' := b[..|b| - 1];
      assert (a + b)[..|a + b| - 1] == a + b';
      SelectedConcat(a, b');
    }
  }

  /**
   * Exactly the registrable attributes are selected: a selected function comes from
   * a public attribute with truthy tags, and every such attribute is selected.
   */
  lemma {:induction false} SelectedMembers(attrs: Listing, fn: Callable)
    ensures fn in Selected(attrs) <==> exists i :: 0 <= i < |attrs| && Registrable(attrs[i]) && attrs[i].1.fn == fn
  {
    if |attrs| > 0 {
      var init := attrs[..|attrs| - 1];
      SelectedMembers(init, fn);
      if exists i :: 0 <= i < |init| && Registrable(init[i]) && init[i].1.fn == fn {
        var i :| 0 <= i < |init| && Registrable(init[i]) && init[i].1.fn == fn;
        assert attrs[i] == init[i];
      }
      if exists i :: 0 <= i < |attrs| && Registrable(attrs[i]) && attrs[i].1.fn == fn {
        var i :| 0 <= i < |attrs| && Registrable(attrs[i]) && attrs[i].1.fn == fn;
        if i < |init| {
          assert init[i] == attrs[i];
        }
      }
    }
  }

  /** Functions tagged by `@get` or `@post` with a non-empty path pass the selection when public. */
  lemma DecoratedSelected(name: string, path: string, f: Callable)
    requires !StartsWith(name, "_") && path != ""
    ensures Selected([(name, Function(Get(path, f)))]) == [Get(path, f)]
    ensures Selected([(name, Function(Post(path, f)))]) == [Post(path, f)]
  {
    var a: Listing := [(name, Function(Get(path, f)))];
    var b: Listing := [(name, Function(Post(path, f)))];
    assert a[..0] == [] && b[..0] == [];
  }

  /** `routes` is `start` followed by one route serving each of `fns`, in order. */
  ghost predicate ServesFrom(routes: seq<Route>, start: seq<Route>, fns: seq<Callable>) {
    && |routes| == |start| + |fns|
    && routes[..|start|] == start
    && forall j :: 0 <= j < |fns| ==> Serves(routes[|start| + j], fns[j])
  }

  /** Appending a route that serves `fn` extends what the routes serve by `fn`. */
  lemma ServesFromAppend(routes: seq<Route>, start: seq<Route>, fns: seq<Callable>, route: Route, fn: Callable)
    requires ServesFrom(routes, start, fns) && Serves(route, fn)
    ensures ServesFrom(routes + [route], start, fns + [fn])
  {
    var longer := routes + [route];
    assert longer[..|start|] == routes[..|start|];
    forall j | 0 <= j < |fns| + 1
      ensures Serves(longer[|start| + j], (fns + [fn])[j])
    {
      if j < |fns| {
        assert longer[|start| + j] == routes[|start| + j];
      }
    }
  }

  /** One more attribute of the listing adds its function to the selection when it is registrable. */
  lemma SelectedStep(attrs: Listing, i: nat)
    requires i < |attrs|
    ensures Selected(attrs[..i + 1]) == Selected(attrs[..i]) + (if Registrable(attrs[i]) then [attrs[i].1.fn] else [])
  {
    assert attrs[..i + 1][..i] == attrs[..i];
  }

  /**
   * `add_routes(app, module_name)`: imports the module (`load` stands for the import
   * and for `dir`), skips private names, and adds a route for every callable whose
   * tags are truthy, stopping at the first one `add_route` refuses.
   */
  method AddRoutes(router: Router, moduleName: string, load: ModuleRef -> Listing) returns (r: Result<(), RouteError>)
    modifies router
    ensures var sel := Selected(load(ModuleOf(moduleName)));
      var k := FirstRefused(sel);
      && (r.Success? <==> k == |sel|)
      && (r.Failure? ==> r.error == BadSignature(RequestNotLast(sel[k].name)))
      && ServesFrom(router.routes, old(router.routes), sel[..k])
      && (forall i :: |old(router.routes)| <= i < |router.routes| ==> fresh(router.routes[i].handler))
  {
    var attrs := load(ModuleOf(moduleName));
    ghost var start := router.routes;
    ghost var done: seq<Callable> := [];
    var i := 0;
    while i < |attrs|
      invariant 0 <= i <= |attrs|
      invariant done == Selected(attrs[..i])
      invariant FirstRefused(done) == |done|
      invariant ServesFrom(router.routes, start, done)
      invariant forall j :: |start| <= j < |router.routes| ==> fresh(router.routes[j].handler)
    {
      SelectedStep(attrs, i);
      var (name, member) := attrs[i];
      if !StartsWith(name, "_") && member.Function? {
        var fn := member.fn;
        var tag := fn.httpMethod;
        var path := fn.route;
        if Truthy(tag) && Truthy(path) {
          var added := Register(router, fn, start, done);
          if added.Failure? {
            RefusedHere(attrs, i, done);
            return added;
          }
          done := done + [fn];
        }
      }
      i := i + 1;
    }
    assert attrs[..i] == attrs;
    assert done[..|done|] == done;
    return Success(());
  }

  /** One `add_route` call of `add_routes`, on a function whose tags are both present. */
  method Register(router: Router, fn: Callable, ghost start: seq<Route>, ghost done: seq<Callable>)
    returns (r: Result<(), RouteError>)
    requires fn.httpMethod.Some? && fn.route.Some?
    requires ServesFrom(router.routes, start, done) && FirstRefused(done) == |done|
    modifies router
    ensures r.Failure? <==> RequestMisplaced(fn.signature)
    ensures r.Failure? ==> r.error == BadSignature(RequestNotLast(fn.name)) && router.routes == old(router.routes)
    ensures r.Success? ==>
      && ServesFrom(router.routes, start, done + [fn])
      && FirstRefused(done + [fn]) == |done + [fn]|
      && router.routes[..|old(router.routes)|] == old(router.routes)
      && |router.routes| == |old(router.routes)| + 1
      && fresh(router.routes[|old(router.routes)|].handler)
  {
    ghost var before := router.routes;
    r := AddRoute(router, fn);
    if r.Success? {
      ServesFromAppend(before, start, done, router.routes[|before|], fn);
      assert router.routes == before + [router.routes[|before|]];
      AcceptedHere(done, fn);
    }
  }

  /** The selection around a registrable attribute at position `i`. */
  lemma SelectedAround(attrs: Listing, i: nat)
    requires i < |attrs| && Registrable(attrs[i])
    ensures Selected(attrs) == Selected(attrs[..i]) + [attrs[i].1.fn] + Selected(attrs[i + 1..])
  {
    var head := attrs[..i + 1];
    var tail := attrs[i + 1..];
    assert head[..|head| - 1] == attrs[..i] && head[|head| - 1] == attrs[i];
    assert Selected(head) == Selected(attrs[..i]) + [attrs[i].1.fn];
    assert head + tail == attrs;
    SelectedConcat(head, tail);
  }

  /** When the registrable attribute at `i` is refused, the first refusal of the whole selection is there. */
  lemma RefusedHere(attrs: Listing, i: nat, done: seq<Callable>)
    requires i < |attrs| && Registrable(attrs[i]) && RequestMisplaced(attrs[i].1.fn.signature)
    requires done == Selected(attrs[..i]) && FirstRefused(done) == |done|
    ensures FirstRefused(Selected(attrs)) == |done| < |Selected(attrs)|
    ensures Selected(attrs)[|done|] == attrs[i].1.fn
    ensures Selected(attrs)[..|done|] == done
  {
    SelectedAround(attrs, i);
    RefusedBetween(done, attrs[i].1.fn, Selected(attrs[i + 1..]));
  }

  /** A refused function after an accepted prefix is the first refusal, whatever follows it. */
  lemma RefusedBetween(done: seq<Callable>, fn: Callable, rest: seq<Callable>)
    requires FirstRefused(done) == |done| && RequestMisplaced(fn.signature)
    ensures var whole := done + [fn] + rest;
      FirstRefused(whole) == |done| < |whole| && whole[|done|] == fn && whole[..|done|] == done
  {
    var whole := done + [fn] + rest;
    FirstRefusedAt(done, [fn], rest);
    assert whole[..|done|] == done;
  }

  /** A function `add_route` accepts after an accepted selection extends it. */
  lemma AcceptedHere(done: seq<Callable>, fn: Callable)
    requires FirstRefused(done) == |done| && !RequestMisplaced(fn.signature)
    ensures FirstRefused(done + [fn]) == |done| + 1
  {
    FirstRefusedAt(done, [fn], []);
  }

  /** Where the first refusal lies in a selection built as `done + [fn] + rest`. */
  lemma {:induction false} FirstRefusedAt(done: seq<Callable>, one: seq<Callable>, rest: seq<Callable>)
    requires FirstRefused(done) == |done| && |one| == 1
    ensures RequestMisplaced(one[0].signature) ==> FirstRefused(done + one + rest) == |done|
    ensures !RequestMisplaced(one[0].signature) ==> FirstRefused(done + one) == |done| + 1
    decreases |done|
  {
    if |done| == 0 {
      assert done + one + rest == one + rest;
      assert done + one == one;
      assert one[1..] == [];
    } else {
      assert (done + one + rest)[1..] == done[1..] + one + rest;
      assert (done + one)[1..] == done[1..] + one;
      FirstRefusedAt(done[1..], one, rest);
    }
  }
}
