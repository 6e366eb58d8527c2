/**
 * String building used by the ORM: `', '.join`, back-quoting, the `?` placeholder
 * list of `create_args_string`, and the `?` to `%s` rewrite that `select` and
 * `execute` apply before handing SQL to the driver.
 */
module SqlText {

  /** The neutral placeholder written into every SQL template. */
  const Marker: char := '?'

  /** `sep.join(parts)`. */
  function Join(sep: string, parts: seq<string>): string
    decreases |parts|
  {
    if |parts| == 0 then ""
    else if |parts| == 1 then parts[0]
    else parts[0] + sep + Join(sep, parts[1..])
  }

  /** `'`%s`' % name`: a back-quoted identifier. */
  function Quote(name: string): string {
    "`" + name + "`"
  }

  /** Number of occurrences of `c` in `s`. */
  function Count(c: char, s: string): nat {
    if |s| == 0 then 0 else (if s[0] == c then 1 else 0) + Count(c, s[1..])
  }

  /** Total number of occurrences of `c` over all `parts`. */
  function CountAll(c: char, parts: seq<string>): nat {
    if |parts| == 0 then 0 else Count(c, parts[0]) + CountAll(c, parts[1..])
  }

  lemma {:induction false} CountConcat(c: char, a: string, b: string)
    ensures Count(c, a + b) == Count(c, a) + Count(c, b)
  {
    if |a| > 0 {
      assert (a + b)[1..] == a[1..] + b;
      CountConcat(c, a[1..], b);
    } else {
      assert a + b == b;
    }
  }

  lemma {:induction false} CountAbsent(c: char, s: string)
    requires c !in s
    ensures Count(c, s) == 0
  {
    if |s| > 0 {
      assert s[0] != c;
      assert forall i :: 0 <= i < |s[1..]| ==> s[1..][i] == s[i + 1];
      CountAbsent(c, s[1..]);
    }
  }

  lemma {:induction false} CountPresent(c: char, s: string)
    requires c in s
    ensures Count(c, s) > 0
  {
    if s[0] != c {
      assert c in s[1..];
      CountPresent(c, s[1..]);
    }
  }

  /** Joining with a separator that holds no `c` adds no `c`. */
  lemma {:induction false} CountJoin(c: char, sep: string, parts: seq<string>)
    requires c !in sep
    ensures Count(c, Join(sep, parts)) == CountAll(c, parts)
    decreases |parts|
  {
    if |parts| == 0 {
    } else if |parts| == 1 {
      assert parts[1..] == [];
    } else {
      CountJoin(c, sep, parts[1..]);
      CountAbsent(c, sep);
      CountConcat(c, parts[0], sep);
      CountConcat(c, parts[0] + sep, Join(sep, parts[1..]));
    }
  }

  /** A joined string holds `c` only where one of the parts or the separator does. */
  lemma {:induction false} JoinChars(sep: string, parts: seq<string>, c: char)
    requires c in Join(sep, parts)
    ensures c in sep || exists i :: 0 <= i < |parts| && c in parts[i]
    decreases |parts|
  {
    if |parts| >= 2 {
      var rest := Join(sep, parts[1..]);
      assert c in parts[0] || c in sep || c in rest;
      if c in rest && c !in parts[0] && c !in sep {
        JoinChars(sep, parts[1..], c);
        var i :| 0 <= i < |parts[1..]| && c in parts[1..][i];
        assert c in parts[i + 1];
      }
    }
  }

  /** The list `L` that `create_args_string(num)` builds: one `'?'` per step of `range(num)`. */
  function Markers(num: int): (l: seq<string>)
    ensures |l| == (if num <= 0 then 0 else num)
    ensures forall i :: 0 <= i < |l| ==> l[i] == [Marker]
  {
    if num <= 0 then [] else Markers(num - 1) + [[Marker]]
  }

  /** The placeholder list `?, ?, ..., ?` with `num` markers (none when `num <= 0`). */
  function ArgsString(num: int): string {
    Join(", ", Markers(num))
  }

  /** `create_args_string(num)`: appends `'?'` once per loop step, then joins with `', '`. */
  method CreateArgsString(num: int) returns (s: string)
    ensures s == ArgsString(num)
    ensures Count(Marker, s) == (if num <= 0 then 0 else num)
    ensures s == "" <==> num <= 0
  {
    var l: seq<string> := [];
    var n := 0;
    while n < num
      invariant 0 <= n
      invariant num > 0 ==> n <= num
      invariant num <= 0 ==> n == 0
      invariant l == Markers(n)
    {
      l := l + [[Marker]];
      n := n + 1;
    }
    s := Join(", ", l);
    ArgsStringCount(num);
    ArgsStringEmpty(num);
  }

  lemma {:induction false} MarkersCount(num: int)
    ensures CountAll(Marker, Markers(num)) == (if num <= 0 then 0 else num)
    decreases if num <= 0 then 0 else num
  {
    if num > 0 {
      MarkersCount(num - 1);
      CountAllAppend(Marker, Markers(num - 1), [Marker]);
    }
  }

  lemma {:induction false} CountAllAppend(c: char, parts: seq<string>, last: string)
    ensures CountAll(c, parts + [last]) == CountAll(c, parts) + Count(c, last)
    decreases |parts|
  {
    if |parts| == 0 {
      assert [last][1..] == [];
    } else {
      assert (parts + [last])[1..] == parts[1..] + [last];
      CountAllAppend(c, parts[1..], last);
    }
  }

  /** `create_args_string(num)` holds exactly `num` placeholders (zero for `num <= 0`). */
  lemma ArgsStringCount(num: int)
    ensures Count(Marker, ArgsString(num)) == (if num <= 0 then 0 else num)
  {
    assert Marker !in ", ";
    CountJoin(Marker, ", ", Markers(num));
    MarkersCount(num);
  }

  /** `create_args_string(num)` is the empty string exactly when `range(num)` is empty. */
  lemma ArgsStringEmpty(num: int)
    ensures ArgsString(num) == "" <==> num <= 0
  {
    if num > 0 {
      ArgsStringCount(num);
      assert Count(Marker, ArgsString(num)) > 0;
    }
  }

  /** Each further placeholder adds `", ?"` at the end: `?`, `?, ?`, `?, ?, ?`, ... */
  lemma {:induction false} ArgsStringStep(num: int)
    requires num >= 1
    ensures ArgsString(1) == [Marker]
    ensures ArgsString(num + 1) == ArgsString(num) + ", " + [Marker]
    ensures |ArgsString(num)| == 3 * num - 2
  {
    assert Markers(1) == [[Marker]];
    JoinAppend(", ", Markers(num), [Marker]);
    if num > 1 {
      ArgsStringStep(num - 1);
    }
  }

  lemma {:induction false} JoinAppend(sep: string, parts: seq<string>, last: string)
    requires |parts| >= 1
    ensures Join(sep, parts + [last]) == Join(sep, parts) + sep + last
    decreases |parts|
  {
    if |parts| == 1 {
      assert (parts + [last])[1..] == [last];
    } else {
      assert (parts + [last])[1..] == parts[1..] + [last];
      JoinAppend(sep, parts[1..], last);
    }
  }

  /** `sql.replace('?', '%s')`: the driver's native marker in place of each `?`. */
  function Rewrite(sql: string): string {
    if |sql| == 0 then "" else (if sql[0] == Marker then "%s" else [sql[0]]) + Rewrite(sql[1..])
  }

  lemma {:induction false} RewriteConcat(a: string, b: string)
    ensures Rewrite(a + b) == Rewrite(a) + Rewrite(b)
  {
    if |a| > 0 {
      assert (a + b)[1..] == a[1..] + b;
      RewriteConcat(a[1..], b);
    } else {
      assert a + b == b;
    }
  }

  /**
   * After the rewrite no `?` is left, every `?` became one `%s` (so the driver sees as
   * many `%` markers as the template had `?` plus any `%` already there), and the text
   * grows by one character per placeholder.
   */
  lemma {:induction false} RewriteFacts(sql: string)
    ensures Count(Marker, Rewrite(sql)) == 0
    ensures Count('%', Rewrite(sql)) == Count('%', sql) + Count(Marker, sql)
    ensures |Rewrite(sql)| == |sql| + Count(Marker, sql)
  {
    if |sql| > 0 {
      RewriteFacts(sql[1..]);
      var head := if sql[0] == Marker then "%s" else [sql[0]];
      CountConcat(Marker, head, Rewrite(sql[1..]));
      CountConcat('%', head, Rewrite(sql[1..]));
    }
  }

  /** SQL without placeholders reaches the driver unchanged. */
  lemma {:induction false} RewriteWithoutMarkers(sql: string)
    requires Marker !in sql
    ensures Rewrite(sql) == sql
  {
    if |sql| > 0 {
      assert sql[0] != Marker;
      assert Marker !in sql[1..];
      RewriteWithoutMarkers(sql[1..]);
      assert [sql[0]] + sql[1..] == sql;
    }
  }
}
