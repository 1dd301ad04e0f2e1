/** The part of SQL the list handlers build at run time: a fixed query
    followed by `AND …` conditions that name `$n` placeholders, and the
    `params` array those placeholders are bound to. The query text itself is
    replaced by the sequence of appended conditions. */
module Sql {
  import opened Base

  /** A bound parameter or a column value. `Pattern(t)` is the parameter
      `%t%` that the search filters push. */
  datatype Value = Null | Int(i: int) | Str(s: string) | Pattern(term: string)

  /** The columns of a joined result row that an appended condition can name. */
  datatype Column =
    | Role | FirstName | LastName | Email
    | PatientCode | EmployeeCode | Position | DepartmentRef | Status
    | PatientRef | DoctorRef | EmployeeRef | UserRef
    | Medication | Diagnosis | RecordType
    | Audience | Priority | Month | Year | Date

  /** One result row of the fixed part of a query, seen through the columns
      its conditions may name. */
  type View = map<Column, Value>

  /** An appended condition and its placeholder `$p`. */
  datatype Cond =
    | Eq(col: Column, p: nat)                       // AND col = $p
    | AtLeast(col: Column, p: nat)                  // AND col >= $p
    | AtMost(col: Column, p: nat)                   // AND col <= $p
    | AnyLike(cols: seq<Column>, p: nat)            // AND (c1 ILIKE $p OR c2 ILIKE $p …)
    | EqOr(col: Column, constant: string, p: nat)   // AND (col = 'constant' OR col = $p)

  datatype Query = Query(conds: seq<Cond>, params: seq<Value>)

  /** SQL `=`: a comparison with NULL is never true. */
  predicate SqlEq(a: Value, b: Value) {
    a != Null && b != Null && a == b
  }

  predicate Like(a: Value, pattern: Value) {
    a.Str? && pattern.Pattern? && Contains(a.s, pattern.term)
  }

  /** Whether condition `c` is true of row `v` when its placeholder is bound to `x`. */
  predicate Test(c: Cond, x: Value, v: View) {
    match c
    case Eq(col, _) => col in v && SqlEq(v[col], x)
    case AtLeast(col, _) => col in v && v[col].Int? && x.Int? && v[col].i >= x.i
    case AtMost(col, _) => col in v && v[col].Int? && x.Int? && v[col].i <= x.i
    case AnyLike(cols, _) => exists col | col in cols :: col in v && Like(v[col], x)
    case EqOr(col, k, _) => col in v && (v[col] == Str(k) || SqlEq(v[col], x))
  }

  /** Whether condition `c` is true of row `v` under the bound `params`; a
      placeholder with no parameter bound to it is never true. */
  predicate Holds(c: Cond, params: seq<Value>, v: View) {
    1 <= c.p <= |params| && Test(c, params[c.p - 1], v)
  }

  /** The row passes the conjunction of all appended conditions. */
  predicate Admits(q: Query, v: View) {
    forall i :: 0 <= i < |q.conds| ==> Holds(q.conds[i], q.params, v)
  }

  /** The builder's discipline: the i-th appended condition names `$(i+1)` and
      one parameter was pushed per condition, so that `paramCount`, the next
      placeholder, equals `|params| + 1`. */
  predicate Numbered(q: Query) {
    && |q.conds| == |q.params|
    && forall i :: 0 <= i < |q.conds| ==> q.conds[i].p == i + 1
  }

  /** Appending `AND c` and pushing `x` as `$paramCount` keeps the discipline
      and narrows the result by exactly `c`. */
  lemma AndWhere(q: Query, c: Cond, x: Value)
    requires Numbered(q) && c.p == |q.params| + 1
    ensures Numbered(Query(q.conds + [c], q.params + [x]))
    ensures forall v :: Admits(Query(q.conds + [c], q.params + [x]), v) <==>
                        Admits(q, v) && Holds(c, q.params + [x], v)
  {
    var q' := Query(q.conds + [c], q.params + [x]);
    forall v ensures Admits(q', v) <==> Admits(q, v) && Holds(c, q'.params, v) {
      forall i | 0 <= i < |q.conds| ensures Holds(q.conds[i], q.params, v) <==> Holds(q'.conds[i], q'.params, v) {
        assert q'.conds[i] == q.conds[i];
        assert q'.params[q.conds[i].p - 1] == q.params[q.conds[i].p - 1];
      }
      assert q'.conds[|q.conds|] == c;
    }
  }

  /** `query += " AND …$paramCount"; params.push(x)`, for a builder that
      keeps its discipline. */
  function And(q: Query, c: Cond, x: Value): (r: Query)
    requires Numbered(q) && c.p == |q.params| + 1
    ensures Numbered(r) && r.params == q.params + [x]
    ensures forall v :: Admits(r, v) <==> Admits(q, v) && Holds(c, r.params, v)
  {
    AndWhere(q, c, x);
    Query(q.conds + [c], q.params + [x])
  }

  /** `if (given) { query += " AND c"; params.push(x); paramCount++; }`, with
      `c` naming `$paramCount`: when the request value is not given the query
      is left as it is. The builder's invariant `paramCount == |params| + 1`
      holds before and after. */
  method AndIf(q: Query, paramCount: nat, given: bool, c: Cond, x: Value) returns (r: Query, nextCount: nat)
    requires Numbered(q) && paramCount == |q.params| + 1 && c.p == paramCount
    ensures Numbered(r) && nextCount == |r.params| + 1
    ensures r.params == if given then q.params + [x] else q.params
    ensures forall v :: Admits(r, v) <==> Admits(q, v) && (given ==> Test(c, x, v))
  {
    r, nextCount := q, paramCount;
    if given {
      r := And(q, c, x);
      nextCount := paramCount + 1;
    }
  }

  /** A search over three columns matches when any of them contains the term. */
  lemma LikeAny3(a: Column, b: Column, c: Column, p: nat, x: Value, v: View)
    ensures Test(AnyLike([a, b, c], p), x, v) <==>
            (a in v && Like(v[a], x)) || (b in v && Like(v[b], x)) || (c in v && Like(v[c], x))
  {
  }

  /** A search over four columns matches when any of them contains the term. */
  lemma LikeAny4(a: Column, b: Column, c: Column, d: Column, p: nat, x: Value, v: View)
    ensures Test(AnyLike([a, b, c, d], p), x, v) <==>
            (a in v && Like(v[a], x)) || (b in v && Like(v[b], x)) ||
            (c in v && Like(v[c], x)) || (d in v && Like(v[d], x))
  {
  }

  /** `pool.query(query, params)`: the rows of the fixed part that pass every
      appended condition. */
  function Select<R(!new)>(rows: seq<R>, view: R -> View, q: Query): (r: seq<R>)
    ensures |r| <= |rows|
    ensures forall x :: x in r <==> x in rows && Admits(q, view(x))
  {
    if |rows| == 0 then []
    else
      var rest := Select(rows[1..], view, q);
      assert forall x :: x in rows <==> x == rows[0] || x in rows[1..];
      if Admits(q, view(rows[0])) then [rows[0]] + rest else rest
  }

  /** The rows `JOIN` pairs: every `(a, b)` with `on(a, b)`, `xs` in the
      outer loop. */
  function Pairs<A(!new), B(!new)>(xs: seq<A>, ys: seq<B>, on: (A, B) -> bool): (r: seq<(A, B)>)
    ensures forall a, b :: (a, b) in r <==> a in xs && b in ys && on(a, b)
  {
    if |xs| == 0 then []
    else
      var rest := Pairs(xs[1..], ys, on);
      assert forall a :: a in xs <==> a == xs[0] || a in xs[1..];
      Matching(xs[0], ys, on) + rest
  }

  function Matching<A(!new), B(!new)>(a: A, ys: seq<B>, on: (A, B) -> bool): (r: seq<(A, B)>)
    ensures forall a', b :: (a', b) in r <==> a' == a && b in ys && on(a, b)
  {
    if |ys| == 0 then []
    else
      var rest := Matching(a, ys[1..], on);
      assert forall b :: b in ys <==> b == ys[0] || b in ys[1..];
      (if on(a, ys[0]) then [(a, ys[0])] else []) + rest
  }

  /** A row comes back from `Select` as often as it occurs in the fixed part
      when it passes the conditions, and never otherwise. */
  lemma {:induction false} SelectCounts<R(!new)>(rows: seq<R>, view: R -> View, q: Query)
    ensures forall x :: multiset(Select(rows, view, q))[x] ==
                          if Admits(q, view(x)) then multiset(rows)[x] else 0
  {
    if |rows| > 0 {
      SelectCounts(rows[1..], view, q);
      assert rows == [rows[0]] + rows[1..];
    }
  }

  /** `Matching(a, ys, on)` holds `(a', b)` once for each occurrence of `b`
      in `ys` when `a'` is `a` and matches it. */
  lemma {:induction false} MatchingCount<A(!new), B(!new)>(a: A, ys: seq<B>, on: (A, B) -> bool, a': A, b: B)
    ensures multiset(Matching(a, ys, on))[(a', b)] == if a' == a && on(a, b) then multiset(ys)[b] else 0
  {
    if |ys| > 0 {
      MatchingCount(a, ys[1..], on, a', b);
      assert ys == [ys[0]] + ys[1..];
    }
  }

  /** A JOIN holds each matching pair as many times as the product of the
      occurrences of its two rows. */
  lemma {:induction false} PairsCount<A(!new), B(!new)>(xs: seq<A>, ys: seq<B>, on: (A, B) -> bool, a: A, b: B)
    ensures multiset(Pairs(xs, ys, on))[(a, b)] == if on(a, b) then multiset(xs)[a] * multiset(ys)[b] else 0
  {
    if |xs| > 0 {
      PairsSplit(xs, ys, on, a, b);
      CountSplit(xs, a);
      MatchingCount(xs[0], ys, on, a, b);
      PairsCount(xs[1..], ys, on, a, b);
      SumOfProducts(multiset(Matching(xs[0], ys, on))[(a, b)], multiset(Pairs(xs[1..], ys, on))[(a, b)],
                    if a == xs[0] then 1 else 0, multiset(xs[1..])[a], multiset(ys)[b], on(a, b));
    }
  }

  lemma PairsSplit<A(!new), B(!new)>(xs: seq<A>, ys: seq<B>, on: (A, B) -> bool, a: A, b: B)
    requires |xs| > 0
    ensures multiset(Pairs(xs, ys, on))[(a, b)] ==
              multiset(Matching(xs[0], ys, on))[(a, b)] + multiset(Pairs(xs[1..], ys, on))[(a, b)]
  {
    assert Pairs(xs, ys, on) == Matching(xs[0], ys, on) + Pairs(xs[1..], ys, on);
  }

  lemma CountSplit<A>(xs: seq<A>, a: A)
    requires |xs| > 0
    ensures multiset(xs)[a] == (if a == xs[0] then 1 else 0) + multiset(xs[1..])[a]
  {
    assert xs == [xs[0]] + xs[1..];
  }

  lemma SumOfProducts(h: nat, r: nat, k: nat, m: nat, n: nat, c: bool)
    requires h == if c then k * n else 0
    requires r == if c then m * n else 0
    ensures h + r == if c then (k + m) * n else 0
  {
    assert k * n + m * n == (k + m) * n;
  }

  function OptInt(n: Option<int>): Value {
    if n.Some? then Int(n.value) else Null
  }

  function OptStr(s: Option<string>): Value {
    if s.Some? then Str(s.value) else Null
  }

  /** The `%term%` parameter of a search filter; only pushed when the term is given. */
  function OptPattern(s: Option<string>): Value {
    if s.Some? then Pattern(s.value) else Null
  }
}
