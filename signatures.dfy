/**
 * What the web layer reads off a URL handler's signature: the keyword-only
 * parameters (all of them, and those without a default), whether it takes
 * `**kw`, and whether it asks for the `request` and names it last.
 */
module Signatures {
  import opened Wrappers
  import opened Seqs

  /** `inspect.Parameter.kind`. */
  datatype Kind = PositionalOnly | PositionalOrKeyword | VarPositional | KeywordOnly | VarKeyword

  /** One parameter: its name, kind, and whether it declares a default. */
  datatype Param = Param(name: string, kind: Kind, hasDefault: bool)

  /** `inspect.signature(fn).parameters`, in declaration order. */
  type Signature = seq<Param>

  /**
   * A Python function as the web layer sees it: its `__name__`, its signature, the
   * code it runs (by name: calling it is outside the model), and the `__method__`
   * and `__route__` tags the decorators attach (`None` when absent).
   */
  datatype Callable = Callable(name: string, signature: Signature, body: string,
                               httpMethod: Option<string>, route: Option<string>)

  /** `ValueError('request parameter must be the last named parameter in function: ...')`. */
  datatype SignatureError = RequestNotLast(handler: string)

  /** The keyword-only parameter names, in order. */
  function NamedKwArgs(sig: Signature): seq<string> {
    if |sig| == 0 then []
    else
      var last := sig[|sig| - 1];
      NamedKwArgs(sig[..|sig| - 1]) + (if last.kind == KeywordOnly then [last.name] else [])
  }

  /** The keyword-only parameter names without a default, in order. */
  function RequiredKwArgs(sig: Signature): seq<string> {
    if |sig| == 0 then []
    else
      var last := sig[|sig| - 1];
      RequiredKwArgs(sig[..|sig| - 1]) + (if last.kind == KeywordOnly && !last.hasDefault then [last.name] else [])
  }

  /** Some parameter has kind `k`. */
  predicate HasKind(sig: Signature, k: Kind) {
    exists i :: 0 <= i < |sig| && sig[i].kind == k
  }

  /** Some parameter is called `name`. */
  predicate Declares(sig: Signature, name: string) {
    exists i :: 0 <= i < |sig| && sig[i].name == name
  }

  /** The kinds allowed after `request`: `*args`, keyword-only parameters and `**kw`. */
  predicate MayFollowRequest(k: Kind) {
    k == VarPositional || k == KeywordOnly || k == VarKeyword
  }

  /**
   * Some parameter other than `request` whose kind may not follow it comes after a
   * parameter called `request`; `RequestMisplacedPairs` restates this as a pair of positions.
   */
  predicate RequestMisplaced(sig: Signature) {
    if |sig| == 0 then false
    else
      var init := sig[..|sig| - 1];
      var last := sig[|sig| - 1];
      || RequestMisplaced(init)
      || (last.name != "request" && !MayFollowRequest(last.kind) && Declares(init, "request"))
  }

  /** `get_named_kw_args(fn)`. */
  method GetNamedKwArgs(sig: Signature) returns (args: seq<string>)
    ensures args == NamedKwArgs(sig)
  {
    args := [];
    var i := 0;
    while i < |sig|
      invariant 0 <= i <= |sig|
      invariant args == NamedKwArgs(sig[..i])
    {
      assert sig[..i + 1][..i] == sig[..i];
      if sig[i].kind == KeywordOnly {
        args := args + [sig[i].name];
      }
      i := i + 1;
    }
    assert sig[..i] == sig;
  }

  /** `get_required_kw_args(fn)`. */
  method GetRequiredKwArgs(sig: Signature) returns (args: seq<string>)
    ensures args == RequiredKwArgs(sig)
  {
    args := [];
    var i := 0;
    while i < |sig|
      invariant 0 <= i <= |sig|
      invariant args == RequiredKwArgs(sig[..i])
    {
      assert sig[..i + 1][..i] == sig[..i];
      if sig[i].kind == KeywordOnly && !sig[i].hasDefault {
        args := args + [sig[i].name];
      }
      i := i + 1;
    }
    assert sig[..i] == sig;
  }

  /** `has_named_kw_args(fn)`: `True`, or `None` (falsy) when the loop runs out. */
  method HasNamedKwArgs(sig: Signature) returns (b: bool)
    ensures b <==> HasKind(sig, KeywordOnly)
  {
    var i := 0;
    while i < |sig|
      invariant 0 <= i <= |sig|
      invariant forall j :: 0 <= j < i ==> sig[j].kind != KeywordOnly
    {
      if sig[i].kind == KeywordOnly {
        return true;
      }
      i := i + 1;
    }
    return false;
  }

  /** `has_var_kw_arg(fn)`: `True`, or `None` (falsy) when the loop runs out. */
  method HasVarKwArg(sig: Signature) returns (b: bool)
    ensures b <==> HasKind(sig, VarKeyword)
  {
    var i := 0;
    while i < |sig|
      invariant 0 <= i <= |sig|
      invariant forall j :: 0 <= j < i ==> sig[j].kind != VarKeyword
    {
      if sig[i].kind == VarKeyword {
        return true;
      }
      i := i + 1;
    }
    return false;
  }

  /**
   * `has_request_arg(fn)`: whether some parameter is called `request`, raising when a
   * positional-or-keyword (or positional-only) parameter comes after it.
   */
  method HasRequestArg(handler: string, sig: Signature) returns (r: Result<bool, SignatureError>)
    ensures r.Failure? <==> RequestMisplaced(sig)
    ensures r.Failure? ==> r.error == RequestNotLast(handler)
    ensures r.Success? ==> (r.value <==> Declares(sig, "request"))
  {
    var found := false;
    var i := 0;
    while i < |sig|
      invariant 0 <= i <= |sig|
      invariant found <==> Declares(sig[..i], "request")
      invariant !RequestMisplaced(sig[..i])
    {
      PrefixStep(sig, i);
      if sig[i].name == "request" {
        found := true;
        i := i + 1;
        continue;
      }
      if found && sig[i].kind != VarPositional && sig[i].kind != KeywordOnly && sig[i].kind != VarKeyword {
        var k :| 0 <= k < i && sig[..i][k].name == "request";
        assert sig[k] == sig[..i][k];
        assert MisplacedPair(sig, k, i);
        RequestMisplacedPairs(sig);
        return Failure(RequestNotLast(handler));
      }
      i := i + 1;
    }
    assert sig[..i] == sig;
    return Success(found);
  }

  /** The prefix of length `i + 1` extends the one of length `i` by `sig[i]`. */
  lemma PrefixStep(sig: Signature, i: nat)
    requires i < |sig|
    ensures sig[..i + 1][..i] == sig[..i] && sig[..i + 1][i] == sig[i]
    ensures Declares(sig[..i + 1], "request") <==> Declares(sig[..i], "request") || sig[i].name == "request"
  {
    var longer := sig[..i + 1];
    assert longer[..i] == sig[..i];
    if Declares(sig[..i + 1], "request") {
      var k :| 0 <= k < |longer| && longer[k].name == "request";
      if k < i {
        assert sig[..i][k] == longer[k];
      }
    }
    if Declares(sig[..i], "request") {
      var k :| 0 <= k < i && sig[..i][k].name == "request";
      assert longer[k] == sig[..i][k];
    }
  }

  /** The parameter at `j` may not follow the `request` parameter at `i`, which precedes it. */
  predicate MisplacedPair(sig: Signature, i: int, j: int) {
    0 <= i < j < |sig| && sig[i].name == "request" && sig[j].name != "request" && !MayFollowRequest(sig[j].kind)
  }

  /** `RequestMisplaced` holds exactly when some pair of positions is misplaced. */
  lemma {:induction false} RequestMisplacedPairs(sig: Signature)
    ensures RequestMisplaced(sig) <==> exists i, j :: MisplacedPair(sig, i, j)
  {
    if |sig| > 0 {
      var init := sig[..|sig| - 1];
      RequestMisplacedPairs(init);
      if RequestMisplaced(sig) {
        if RequestMisplaced(init) {
          var i, j :| MisplacedPair(init, i, j);
          assert sig[i] == init[i] && sig[j] == init[j];
          assert MisplacedPair(sig, i, j);
        } else {
          var i :| 0 <= i < |init| && init[i].name == "request";
          assert sig[i] == init[i];
          assert MisplacedPair(sig, i, |sig| - 1);
        }
      }
      if exists i, j :: MisplacedPair(sig, i, j) {
        var i, j :| MisplacedPair(sig, i, j);
        assert init[i] == sig[i];
        if j < |init| {
          assert init[j] == sig[j];
          assert MisplacedPair(init, i, j);
        }
      }
    }
  }

  /** `x` is a keyword-only name exactly when some keyword-only parameter is called `x`. */
  lemma {:induction false} NamedMembers(sig: Signature, x: string)
    ensures x in NamedKwArgs(sig) <==> exists i :: 0 <= i < |sig| && sig[i].name == x && sig[i].kind == KeywordOnly
  {
    if |sig| > 0 {
      var init := sig[..|sig| - 1];
      NamedMembers(init, x);
      if exists i :: 0 <= i < |init| && init[i].name == x && init[i].kind == KeywordOnly {
        var i :| 0 <= i < |init| && init[i].name == x && init[i].kind == KeywordOnly;
        assert sig[i] == init[i];
      }
      if exists i :: 0 <= i < |sig| && sig[i].name == x && sig[i].kind == KeywordOnly {
        var i :| 0 <= i < |sig| && sig[i].name == x && sig[i].kind == KeywordOnly;
        if i < |init| {
          assert init[i] == sig[i];
        }
      }
    }
  }

  /** `x` is a required name exactly when some keyword-only parameter without default is called `x`. */
  lemma {:induction false} RequiredMembers(sig: Signature, x: string)
    ensures x in RequiredKwArgs(sig)
      <==> exists i :: 0 <= i < |sig| && sig[i].name == x && sig[i].kind == KeywordOnly && !sig[i].hasDefault
  {
    if |sig| > 0 {
      var init := sig[..|sig| - 1];
      RequiredMembers(init, x);
      if exists i :: 0 <= i < |init| && init[i].name == x && init[i].kind == KeywordOnly && !init[i].hasDefault {
        var i :| 0 <= i < |init| && init[i].name == x && init[i].kind == KeywordOnly && !init[i].hasDefault;
        assert sig[i] == init[i];
      }
      if exists i :: 0 <= i < |sig| && sig[i].name == x && sig[i].kind == KeywordOnly && !sig[i].hasDefault {
        var i :| 0 <= i < |sig| && sig[i].name == x && sig[i].kind == KeywordOnly && !sig[i].hasDefault;
        if i < |init| {
          assert init[i] == sig[i];
        }
      }
    }
  }

  /** The required names are the named ones with some left out, in the same order. */
  lemma {:induction false} RequiredWithinNamed(sig: Signature)
    ensures IsSubsequence(RequiredKwArgs(sig), NamedKwArgs(sig))
  {
    if |sig| > 0 {
      var init := sig[..|sig| - 1];
      var last := sig[|sig| - 1];
      RequiredWithinNamed(init);
      if last.kind == KeywordOnly {
        if !last.hasDefault {
          var r := RequiredKwArgs(init) + [last.name];
          var n := NamedKwArgs(init) + [last.name];
          assert r[..|r| - 1] == RequiredKwArgs(init);
          assert n[..|n| - 1] == NamedKwArgs(init);
        } else {
          assert RequiredKwArgs(sig) == RequiredKwArgs(init);
          assert NamedKwArgs(sig) == NamedKwArgs(init) + [last.name];
          SubsequenceExtend(RequiredKwArgs(init), NamedKwArgs(init), last.name);
        }
      } else {
        assert RequiredKwArgs(sig) == RequiredKwArgs(init);
        assert NamedKwArgs(sig) == NamedKwArgs(init);
      }
    }
  }

  /**
   * `has_named_kw_args` holds exactly when `get_named_kw_args` is non-empty, so a
   * handler with required keyword-only parameters always has named ones.
   */
  lemma NamedFlag(sig: Signature)
    ensures HasKind(sig, KeywordOnly) <==> |NamedKwArgs(sig)| > 0
    ensures |RequiredKwArgs(sig)| > 0 ==> HasKind(sig, KeywordOnly)
  {
    if HasKind(sig, KeywordOnly) {
      var i :| 0 <= i < |sig| && sig[i].kind == KeywordOnly;
      NamedMembers(sig, sig[i].name);
    }
    if |NamedKwArgs(sig)| > 0 {
      NamedMembers(sig, NamedKwArgs(sig)[0]);
    }
    if |RequiredKwArgs(sig)| > 0 {
      RequiredMembers(sig, RequiredKwArgs(sig)[0]);
    }
  }
}
