/**
 * `RequestHandler`: the flags read off a URL function's signature when the route
 * is added, and the procedure that turns a request into the keyword arguments of
 * the call (or into a `400 Bad Request`).
 */
module Handler {
  import opened Wrappers
  import opened Signatures

  /** A keyword-argument value: text from the URL or a form, an opaque JSON value, or the request. */
  datatype Arg = Text(s: string) | Data(repr: string) | TheRequest

  /** The decoded JSON body: an object (a dict) or any other JSON value. */
  datatype Json = Object(members: map<string, Arg>) | NotObject(repr: string)

  /** The values `parse_qs` gives for a name: never an empty list. */
  type ValueList = s: seq<string> | |s| > 0 witness [""]

  /**
   * The parts of an `aiohttp` request the handler reads. `contentType == ""` is a
   * missing (falsy) content type; `json` and `form` are what `request.json()` and
   * `request.post()` would produce; `query` is `parse_qs(queryString, True)`.
   */
  datatype Request = Request(
    httpMethod: string,
    contentType: string,
    json: Json,
    form: map<string, Arg>,
    queryString: string,
    query: map<string, ValueList>,
    matchInfo: map<string, string>)

  /** What the URL function does when called: returns a result or raises `APIError`. */
  datatype Reply = Returned(result: string) | RaisedApiError(error: string, data: string, message: string)

  /** What `__call__` returns. */
  datatype Response =
    | BadRequest(message: string)
    | Done(result: string)
    /** `dict(error=e.error, data=e.data, message=e.message)`. */
    | ErrorDict(error: string, data: string, message: string)

  /** Running a URL function, by the name of its code, on keyword arguments. */
  type Runner = (string, map<string, Arg>) -> Reply

  /** The classification stored by `RequestHandler.__init__`. */
  datatype Flags = Flags(
    hasRequestArg: bool,
    hasVarKwArg: bool,
    hasNamedKwArgs: bool,
    namedKwArgs: seq<string>,
    requiredKwArgs: seq<string>)

  /** The flags the classifiers compute from a signature without a misplaced `request`. */
  ghost function FlagsOf(sig: Signature): Flags {
    Flags(Declares(sig, "request"), HasKind(sig, VarKeyword), HasKind(sig, KeywordOnly),
          NamedKwArgs(sig), RequiredKwArgs(sig))
  }

  // ---------------------------------------------------------------------------
  // Text helpers
  // ---------------------------------------------------------------------------

  /** `str.lower()` on one character, for the ASCII letters. */
  function LowerChar(c: char): char {
    if 'A' <= c <= 'Z' then (c as int + 32) as char else c
  }

  /** `str.lower()`, folding the ASCII letters. */
  function Lower(s: string): (r: string)
    ensures |r| == |s|
    ensures forall i :: 0 <= i < |s| ==> r[i] == LowerChar(s[i])
  {
    if |s| == 0 then "" else [LowerChar(s[0])] + Lower(s[1..])
  }

  /** `s.startswith(prefix)`. */
  predicate StartsWith(s: string, prefix: string) {
    |prefix| <= |s| && s[..|prefix|] == prefix
  }

  // ---------------------------------------------------------------------------
  // The binding procedure
  // ---------------------------------------------------------------------------

  /** Where the keyword arguments come from before `match_info` is added. */
  datatype Source = NoKw | Kw(kw: map<string, Arg>) | Rejected(message: string)

  /** `{k: v[0] for k, v in parse_qs(qs, True).items()}`. */
  function FirstValues(query: map<string, ValueList>): map<string, Arg> {
    map k | k in query :: Text(query[k][0])
  }

  /** `dict(**request.match_info)`. */
  function MatchArgs(matchInfo: map<string, string>): map<string, Arg> {
    map k | k in matchInfo :: Text(matchInfo[k])
  }

  /** Whether the handler reads the body or query at all. */
  predicate WantsKw(f: Flags) {
    f.hasVarKwArg || f.hasNamedKwArgs || |f.requiredKwArgs| > 0
  }

  /** The keyword arguments found in the body (POST) or the query string (GET). */
  function BodySource(f: Flags, req: Request): Source {
    if !WantsKw(f) then NoKw
    else if req.httpMethod == "POST" then
      if req.contentType == "" then Rejected("Missing Content-Type.")
      else
        var ct := Lower(req.contentType);
        if StartsWith(ct, "application/json") then
          match req.json
          case Object(m) => Kw(m)
          case NotObject(_) => Rejected("JSON body must be object.")
        else if StartsWith(ct, "application/x-www-form-urlencoded") || StartsWith(ct, "multipart/form-data") then
          Kw(req.form)
        else Rejected("Unsupported Content-Type: " + req.contentType)
    else if req.httpMethod == "GET" && req.queryString != "" then Kw(FirstValues(req.query))
    else NoKw
  }

  /** The entries of `kw` whose names are among `names`. */
  function Restrict(kw: map<string, Arg>, names: seq<string>): map<string, Arg> {
    map k | k in kw && k in names :: kw[k]
  }

  /** The keyword arguments before the required-argument check, or the rejection message. */
  function Gathered(f: Flags, req: Request): Result<map<string, Arg>, string> {
    match BodySource(f, req)
    case Rejected(m) => Failure(m)
    case NoKw => Success(Inject(f, MatchArgs(req.matchInfo)))
    case Kw(kw) =>
      var kept := if !f.hasVarKwArg && |f.namedKwArgs| > 0 then Restrict(kw, f.namedKwArgs) else kw;
      Success(Inject(f, kept + MatchArgs(req.matchInfo)))
  }

  /** `kw['request'] = request` when the handler asks for it. */
  function Inject(f: Flags, kw: map<string, Arg>): map<string, Arg> {
    if f.hasRequestArg then kw["request" := TheRequest] else kw
  }

  /** The first of `names` that `kw` lacks. */
  function FirstMissing(names: seq<string>, kw: map<string, Arg>): (r: Option<string>)
    ensures r.None? <==> forall i :: 0 <= i < |names| ==> names[i] in kw
    ensures r.Some? ==> exists i :: 0 <= i < |names| && names[i] == r.value && r.value !in kw
                                    && forall j :: 0 <= j < i ==> names[j] in kw
  {
    if |names| == 0 then None
    else if names[0] !in kw then Some(names[0])
    else
      var r := FirstMissing(names[1..], kw);
      assert r.Some? ==> exists i :: 0 <= i < |names[1..]| && names[1..][i] == r.value && r.value !in kw
                                     && forall j :: 0 <= j < i ==> names[1..][j] in kw;
      if r.Some? then
        var i :| 0 <= i < |names[1..]| && names[1..][i] == r.value && r.value !in kw
                 && forall j :: 0 <= j < i ==> names[1..][j] in kw;
        assert names[i + 1] == r.value && forall j :: 0 <= j < i + 1 ==> names[j] in kw;
        r
      else r
  }

  /** The outcome of binding: a `400` message, or the keyword arguments of the call. */
  datatype Outcome = Reject(message: string) | Invoke(kw: map<string, Arg>)

  function Bind(f: Flags, req: Request): Outcome {
    match Gathered(f, req)
    case Failure(m) => Reject(m)
    case Success(kw) =>
      match FirstMissing(f.requiredKwArgs, kw)
      case Some(n) => Reject("Missing argument: " + n)
      case None => Invoke(kw)
  }

  /** What `__call__` returns for an outcome, running the URL function when there is a call. */
  function Respond(o: Outcome, body: string, run: Runner): Response {
    match o
    case Reject(m) => BadRequest(m)
    case Invoke(kw) =>
      match run(body, kw)
      case Returned(x) => Done(x)
      case RaisedApiError(e, d, m) => ErrorDict(e, d, m)
  }

  // ---------------------------------------------------------------------------
  // The handler object
  // ---------------------------------------------------------------------------

  class RequestHandler {
    const fn: Callable
    const hasRequestArg: bool
    const hasVarKwArg: bool
    const hasNamedKwArgs: bool
    const namedKwArgs: seq<string>
    const requiredKwArgs: seq<string>

    constructor(fn: Callable, f: Flags)
      ensures this.fn == fn && Flagged() == f
    {
      this.fn := fn;
      hasRequestArg := f.hasRequestArg;
      hasVarKwArg := f.hasVarKwArg;
      hasNamedKwArgs := f.hasNamedKwArgs;
      namedKwArgs := f.namedKwArgs;
      requiredKwArgs := f.requiredKwArgs;
    }

    /** The stored classification. */
    function Flagged(): Flags {
      Flags(hasRequestArg, hasVarKwArg, hasNamedKwArgs, namedKwArgs, requiredKwArgs)
    }

    /** `__call__(request)`. */
    method Call(req: Request, run: Runner) returns (resp: Response)
      ensures resp == Respond(Bind(Flagged(), req), fn.body, run)
    {
      var f := Flagged();
      var src := ReadSource(f, req);
      if src.Rejected? {
        return BadRequest(src.message);
      }
      var args := GatherArgs(f, req, src);
      if |requiredKwArgs| > 0 {
        var missing := CheckRequired(requiredKwArgs, args);
        if missing.Some? {
          return BadRequest("Missing argument: " + missing.value);
        }
      } else {
        assert FirstMissing(requiredKwArgs, args).None?;
      }
      var reply := run(fn.body, args);
      match reply
      case Returned(x) =>
        return Done(x);
      case RaisedApiError(e, d, m) =>
        return ErrorDict(e, d, m);
    }
  }

  /**
   * The first half of `__call__`: for a handler that wants keyword arguments, a POST
   * body by content type or a GET query string; a `400` message for a refused body.
   */
  method ReadSource(f: Flags, req: Request) returns (src: Source)
    ensures src == BodySource(f, req)
  {
    src := NoKw;
    if f.hasVarKwArg || f.hasNamedKwArgs || |f.requiredKwArgs| > 0 {
      if req.httpMethod == "POST" {
        if req.contentType == "" {
          return Rejected("Missing Content-Type.");
        }
        var ct := Lower(req.contentType);
        if StartsWith(ct, "application/json") {
          match req.json
          case NotObject(_) =>
            return Rejected("JSON body must be object.");
          case Object(m) =>
            src := Kw(m);
        } else if StartsWith(ct, "application/x-www-form-urlencoded") || StartsWith(ct, "multipart/form-data") {
          src := Kw(req.form);
        } else {
          return Rejected("Unsupported Content-Type: " + req.contentType);
        }
      }
      if req.httpMethod == "GET" {
        if req.queryString != "" {
          var d := QueryArgs(req.query);
          src := Kw(d);
        }
      }
    }
  }

  /**
   * The keyword arguments of the call: the path variables when nothing was read,
   * otherwise the read ones (filtered to the named parameters when there is no `**kw`)
   * with the path variables set over them; then the request, when asked for.
   */
  method GatherArgs(f: Flags, req: Request, src: Source) returns (args: map<string, Arg>)
    requires src == BodySource(f, req) && !src.Rejected?
    ensures Gathered(f, req) == Success(args)
  {
    if src.NoKw? {
      args := MatchArgs(req.matchInfo);
    } else {
      args := src.kw;
      if !f.hasVarKwArg && |f.namedKwArgs| > 0 {
        args := KeepNamed(args, f.namedKwArgs);
      }
      args := MergeMatchInfo(args, req.matchInfo);
    }
    if f.hasRequestArg {
      args := args["request" := TheRequest];
    }
  }

  /** The required-argument loop: the first required name the arguments lack, if any. */
  method CheckRequired(names: seq<string>, args: map<string, Arg>) returns (missing: Option<string>)
    ensures missing == FirstMissing(names, args)
  {
    var i := 0;
    while i < |names|
      invariant 0 <= i <= |names|
      invariant forall j :: 0 <= j < i ==> names[j] in args
    {
      if names[i] !in args {
        FirstMissingIs(names, args, i);
        return Some(names[i]);
      }
      i := i + 1;
    }
    return None;
  }

  /** The first name missing is the one at the first index that is missing. */
  lemma {:induction false} FirstMissingIs(names: seq<string>, kw: map<string, Arg>, i: nat)
    requires i < |names| && names[i] !in kw
    requires forall j :: 0 <= j < i ==> names[j] in kw
    ensures FirstMissing(names, kw) == Some(names[i])
    decreases i
  {
    if i > 0 {
      FirstMissingIs(names[1..], kw, i - 1);
    }
  }

  /** The query loop: each name bound to its first value. */
  method QueryArgs(query: map<string, ValueList>) returns (d: map<string, Arg>)
    ensures d == FirstValues(query)
  {
    d := map[];
    var todo := query.Keys;
    while todo != {}
      invariant todo <= query.Keys
      invariant d == map k | k in query && k !in todo :: Text(query[k][0])
      decreases |todo|
    {
      var k :| k in todo;
      d := d[k := Text(query[k][0])];
      todo := todo - {k};
    }
  }

  /** The `copy` loop: the entries of `kw` named by `names`. */
  method KeepNamed(kw: map<string, Arg>, names: seq<string>) returns (copy: map<string, Arg>)
    ensures copy == Restrict(kw, names)
  {
    copy := map[];
    var i := 0;
    while i < |names|
      invariant 0 <= i <= |names|
      invariant copy == map k | k in kw && k in names[..i] :: kw[k]
    {
      assert names[..i + 1] == names[..i] + [names[i]];
      if names[i] in kw {
        copy := copy[names[i] := kw[names[i]]];
      }
      i := i + 1;
    }
    assert names[..i] == names;
  }

  /** The `match_info` loop: each path variable overwrites a same-named argument. */
  method MergeMatchInfo(kw: map<string, Arg>, matchInfo: map<string, string>) returns (merged: map<string, Arg>)
    ensures merged == kw + MatchArgs(matchInfo)
  {
    merged := kw;
    var todo := matchInfo.Keys;
    while todo != {}
      invariant todo <= matchInfo.Keys
      invariant merged == kw + map k | k in matchInfo && k !in todo :: Text(matchInfo[k])
      decreases |todo|
    {
      var k :| k in todo;
      merged := merged[k := Text(matchInfo[k])];
      todo := todo - {k};
    }
  }
  /**
   * `RequestHandler(app, fn)`: `has_request_arg` runs first and may raise; the other
   * classifiers follow, and their results are stored.
   */
  method NewRequestHandler(fn: Callable) returns (r: Result<RequestHandler, SignatureError>)
    ensures r.Failure? <==> RequestMisplaced(fn.signature)
    ensures r.Failure? ==> r.error == RequestNotLast(fn.name)
    ensures r.Success? ==> fresh(r.value) && r.value.fn == fn && r.value.Flagged() == FlagsOf(fn.signature)
  {
    var sig := fn.signature;
    var request := HasRequestArg(fn.name, sig);
    if request.Failure? {
      return Failure(request.error);
    }
    var varKw := HasVarKwArg(sig);
    var namedFlag := HasNamedKwArgs(sig);
    var named := GetNamedKwArgs(sig);
    var required := GetRequiredKwArgs(sig);
    var h := new RequestHandler(fn, Flags(request.value, varKw, namedFlag, named, required));
    return Success(h);
  }

  // ---------------------------------------------------------------------------
  // Properties of the binding
  // ---------------------------------------------------------------------------

  /**
   * A handler without `**kw`, keyword-only or required parameters is called with
   * exactly the path variables (and the request when it asks for it), whatever the
   * method, content type, body or query string.
   */
  lemma PathOnly(f: Flags, req: Request, other: Request)
    requires !WantsKw(f) && other.matchInfo == req.matchInfo
    ensures Bind(f, req) == Invoke(Inject(f, MatchArgs(req.matchInfo)))
    ensures Bind(f, other) == Bind(f, req)
  {
  }

  /** The three ways a POST body is refused, with their messages. */
  lemma PostRejections(f: Flags, req: Request)
    requires WantsKw(f) && req.httpMethod == "POST"
    ensures req.contentType == "" ==> Bind(f, req) == Reject("Missing Content-Type.")
    ensures req.contentType != "" && StartsWith(Lower(req.contentType), "application/json") && req.json.NotObject?
      ==> Bind(f, req) == Reject("JSON body must be object.")
    ensures req.contentType != "" && !StartsWith(Lower(req.contentType), "application/json")
            && !StartsWith(Lower(req.contentType), "application/x-www-form-urlencoded")
            && !StartsWith(Lower(req.contentType), "multipart/form-data")
      ==> Bind(f, req) == Reject("Unsupported Content-Type: " + req.contentType)
  {
  }

  /** Accepted POST bodies: a JSON object or a form becomes the keyword arguments. */
  lemma PostBodies(f: Flags, req: Request)
    requires WantsKw(f) && req.httpMethod == "POST" && req.contentType != ""
    ensures StartsWith(Lower(req.contentType), "application/json") && req.json.Object?
      ==> BodySource(f, req) == Kw(req.json.members)
    ensures !StartsWith(Lower(req.contentType), "application/json")
            && (StartsWith(Lower(req.contentType), "application/x-www-form-urlencoded")
                || StartsWith(Lower(req.contentType), "multipart/form-data"))
      ==> BodySource(f, req) == Kw(req.form)
  {
  }

  /**
   * The content type is compared without regard to ASCII case: two spellings that
   * lower-case alike bind the same arguments.
   */
  lemma ContentTypeCase(f: Flags, req: Request, ct: string)
    requires req.contentType != "" && ct != "" && Lower(ct) == Lower(req.contentType)
    requires Bind(f, req).Invoke?
    ensures Bind(f, req.(contentType := ct)) == Bind(f, req)
  {
    var other := req.(contentType := ct);
    if WantsKw(f) && req.httpMethod == "POST" {
      var ct1 := Lower(req.contentType);
      if !StartsWith(ct1, "application/json") && !StartsWith(ct1, "application/x-www-form-urlencoded")
         && !StartsWith(ct1, "multipart/form-data") {
        assert false;
      }
    }
    assert BodySource(f, other) == BodySource(f, req);
    SameSource(f, req, other);
  }

  /** The binding depends on the request only through its source and its path variables. */
  lemma SameSource(f: Flags, req: Request, other: Request)
    requires BodySource(f, other) == BodySource(f, req) && other.matchInfo == req.matchInfo
    ensures Bind(f, other) == Bind(f, req)
  {
    assert Gathered(f, other) == Gathered(f, req);
  }

  /** For GET, a non-empty query string binds each name to its first value; an empty one falls back. */
  lemma GetQuery(f: Flags, req: Request)
    requires WantsKw(f) && req.httpMethod == "GET"
    ensures req.queryString != "" ==> BodySource(f, req) == Kw(FirstValues(req.query))
    ensures req.queryString != "" ==> forall k :: k in req.query ==> FirstValues(req.query)[k] == Text(req.query[k][0])
    ensures req.queryString == "" ==> Gathered(f, req) == Success(Inject(f, MatchArgs(req.matchInfo)))
  {
  }

  /**
   * Without `**kw` but with keyword-only parameters, names from the body or query
   * that are not keyword-only parameters are dropped; the kept ones keep their
   * values unless a path variable or the request takes the name.
   */
  lemma FilterUnnamed(f: Flags, req: Request)
    requires BodySource(f, req).Kw? && !f.hasVarKwArg && |f.namedKwArgs| > 0
    ensures var kw := Gathered(f, req).value;
      && (forall k :: k in kw ==> k in f.namedKwArgs || k in req.matchInfo || (f.hasRequestArg && k == "request"))
      && (forall k :: k in BodySource(f, req).kw && k in f.namedKwArgs && k !in req.matchInfo
                      && !(f.hasRequestArg && k == "request")
            ==> k in kw && kw[k] == BodySource(f, req).kw[k])
  {
  }

  /** With `**kw`, every name from the body or query is passed on. */
  lemma VarKwKeepsAll(f: Flags, req: Request)
    requires BodySource(f, req).Kw? && f.hasVarKwArg
    ensures forall k :: k in BodySource(f, req).kw ==> k in Gathered(f, req).value
  {
  }

  /** Path variables overwrite same-named arguments from the body or query. */
  lemma PathWins(f: Flags, req: Request)
    requires Gathered(f, req).Success?
    ensures forall k :: k in req.matchInfo && !(f.hasRequestArg && k == "request") ==>
              k in Gathered(f, req).value && Gathered(f, req).value[k] == Text(req.matchInfo[k])
  {
  }

  /**
   * When neither body nor query supplied arguments, the call gets the path variables
   * unfiltered, even names that are not keyword-only parameters.
   */
  lemma FallbackUnfiltered(f: Flags, req: Request)
    requires BodySource(f, req).NoKw?
    ensures Gathered(f, req).value.Keys == req.matchInfo.Keys + (if f.hasRequestArg then {"request"} else {})
  {
  }

  /** The request is passed under `request` when the handler declares it. */
  lemma RequestInjected(f: Flags, req: Request)
    requires f.hasRequestArg && Bind(f, req).Invoke?
    ensures "request" in Bind(f, req).kw && Bind(f, req).kw["request"] == TheRequest
  {
  }

  /**
   * A call gets every required keyword-only argument; otherwise the first required
   * name that is missing is reported.
   */
  lemma RequiredChecked(f: Flags, req: Request)
    requires Gathered(f, req).Success?
    ensures var kw := Gathered(f, req).value;
      && (Bind(f, req).Invoke? <==> forall i :: 0 <= i < |f.requiredKwArgs| ==> f.requiredKwArgs[i] in kw)
      && (Bind(f, req).Reject? ==>
            exists i :: && 0 <= i < |f.requiredKwArgs| && f.requiredKwArgs[i] !in kw
                        && Bind(f, req).message == "Missing argument: " + f.requiredKwArgs[i]
                        && forall j :: 0 <= j < i ==> f.requiredKwArgs[j] in kw)
  {
  }
}
