/** SQL statements as the builders assemble them. A statement's text is a sequence of pieces:
    literal text, a `?` hole still waiting to be numbered, or a numbered placeholder `$n`. The
    meaning of the SQL itself is not modelled; only its clauses, its placeholders and the values
    bound to them are. Literal whitespace of the Go sources is normalised. */
module Sql {
  import opened Models
  import opened Wrappers

  datatype Piece = Text(s: string) | Hole | Param(n: nat)

  type Query = seq<Piece>

  /** A value bound to a placeholder (Go `any` in the builders' value lists). */
  datatype Value =
    | VText(s: string)
    | VInt(i: int)
    | VReal(r: real)
    | VProduct(p: Option<Product>)
    | VSlip(slip: Option<TransferSlip>)

  datatype Stmt = Stmt(text: Query, args: seq<Value>)

  /** Number of `?` holes left in a text. */
  function Holes(q: Query): nat {
    if q == [] then 0 else (if q[0] == Hole then 1 else 0) + Holes(q[1..])
  }

  /** The placeholder numbers of a text, in the order they occur. */
  function Params(q: Query): seq<nat> {
    if q == [] then [] else (if q[0].Param? then [q[0].n] else []) + Params(q[1..])
  }

  /** `strings.Replace(q, "?", "$n", 1)`: numbers the first hole, if there is one. */
  function ReplaceFirst(q: Query, n: nat): Query {
    if q == [] then []
    else if q[0] == Hole then [Param(n)] + q[1..]
    else [q[0]] + ReplaceFirst(q[1..], n)
  }

  /** Placeholders and values are in step: no hole is left, every placeholder names a bound
      value, and every bound value is named by some placeholder. */
  predicate InStep(q: Query, values: nat) {
    Holes(q) == 0 &&
    (forall p :: p in Params(q) ==> 1 <= p <= values) &&
    (forall k :: 1 <= k <= values ==> k in Params(q))
  }

  /** `1, 2, ..., n`. */
  function Upto(n: nat): (r: seq<nat>)
    ensures |r| == n
  {
    if n == 0 then [] else Upto(n - 1) + [n]
  }

  /** The i-th number of `Upto(n)` is i + 1. */
  lemma {:induction false} UptoIndex(n: nat)
    ensures forall i :: 0 <= i < n ==> Upto(n)[i] == i + 1
  {
    if n > 0 {
      UptoIndex(n - 1);
    }
  }

  lemma {:induction false} HolesAppend(a: Query, b: Query)
    ensures Holes(a + b) == Holes(a) + Holes(b)
  {
    if a != [] {
      assert (a + b)[1..] == a[1..] + b;
      HolesAppend(a[1..], b);
    } else {
      assert a + b == b;
    }
  }

  lemma {:induction false} ParamsAppend(a: Query, b: Query)
    ensures Params(a + b) == Params(a) + Params(b)
  {
    if a != [] {
      assert (a + b)[1..] == a[1..] + b;
      ParamsAppend(a[1..], b);
    } else {
      assert a + b == b;
    }
  }

  /** A fixed statement: its literal parts separated by `$1`, `$2`, ..., in order. */
  function Numbered(parts: seq<string>): Query
    requires parts != []
  {
    if |parts| == 1 then [Text(parts[0])]
    else Numbered(parts[..|parts| - 1]) + [Param(|parts| - 1), Text(parts[|parts| - 1])]
  }

  /** A fixed statement with `k + 1` parts numbers its placeholders `$1..$k` and has no holes. */
  lemma {:induction false} NumberedParams(parts: seq<string>)
    requires parts != []
    ensures Holes(Numbered(parts)) == 0 && Params(Numbered(parts)) == Upto(|parts| - 1)
    decreases |parts|
  {
    var n := |parts| - 1;
    if n == 0 {
      Cons(Text(parts[0]), [], 0);
    } else {
      NumberedParams(parts[..n]);
      NumberedStep(Numbered(parts[..n]), parts[n], n);
    }
  }

  /** Appending `$n` and a literal to a text numbered `$1..$n-1` numbers it `$1..$n`. */
  lemma NumberedStep(init: Query, last: string, n: nat)
    requires n > 0 && Holes(init) == 0 && Params(init) == Upto(n - 1)
    ensures Holes(init + [Param(n), Text(last)]) == 0
    ensures Params(init + [Param(n), Text(last)]) == Upto(n)
  {
    var tail := [Param(n), Text(last)];
    Cons(Text(last), [], 0);
    Cons(Param(n), [Text(last)], 0);
    HolesAppend(init, tail);
    ParamsAppend(init, tail);
  }

  /** So a fixed statement is in step with its `k` values. */
  lemma NumberedInStep(parts: seq<string>)
    requires parts != []
    ensures Holes(Numbered(parts)) == 0 && Params(Numbered(parts)) == Upto(|parts| - 1)
    ensures InStep(Numbered(parts), |parts| - 1)
  {
    NumberedParams(parts);
    UptoInStep(Numbered(parts), |parts| - 1);
  }

  /** Counting and numbering one piece in front of a text. */
  lemma Cons(p: Piece, q: Query, n: nat)
    ensures Holes([p] + q) == (if p == Hole then 1 else 0) + Holes(q)
    ensures Params([p] + q) == (if p.Param? then [p.n] else []) + Params(q)
    ensures ReplaceFirst([p] + q, n) == if p == Hole then [Param(n)] + q else [p] + ReplaceFirst(q, n)
  {
    assert ([p] + q)[1..] == q;
  }

  /** Numbering the first hole of `a + b` when `a` has none numbers the first hole of `b`. */
  lemma ConsAssoc(p: Piece, t: Query, r: Query)
    ensures [p] + (t + r) == ([p] + t) + r
  {
  }

  lemma {:induction false} ReplaceFirstSkips(a: Query, b: Query, n: nat)
    requires Holes(a) == 0
    ensures ReplaceFirst(a + b, n) == a + ReplaceFirst(b, n)
  {
    if a == [] {
      assert a + b == b;
    } else {
      var r := ReplaceFirst(b, n);
      assert (a + b)[1..] == a[1..] + b;
      ReplaceFirstSkips(a[1..], b, n);
      assert ReplaceFirst(a + b, n) == [a[0]] + (a[1..] + r);
      ConsAssoc(a[0], a[1..], r);
      assert [a[0]] + a[1..] == a;
    }
  }

  /** Numbering the first hole of `a + b` when `a` has one leaves `b` alone. */
  lemma {:induction false} ReplaceFirstStops(a: Query, b: Query, n: nat)
    requires Holes(a) > 0
    ensures ReplaceFirst(a + b, n) == ReplaceFirst(a, n) + b
  {
    assert (a + b)[1..] == a[1..] + b;
    if a[0] == Hole {
      assert ReplaceFirst(a + b, n) == [Param(n)] + (a[1..] + b);
      ConsAssoc(Param(n), a[1..], b);
    } else {
      ReplaceFirstStops(a[1..], b, n);
      assert ReplaceFirst(a + b, n) == [a[0]] + (ReplaceFirst(a[1..], n) + b);
      ConsAssoc(a[0], ReplaceFirst(a[1..], n), b);
    }
  }

  /** Numbering removes exactly one hole and adds exactly the placeholder `n`. */
  lemma {:induction false} ReplaceFirstNumbers(q: Query, n: nat)
    requires Holes(q) > 0
    ensures Holes(ReplaceFirst(q, n)) == Holes(q) - 1
    ensures multiset(Params(ReplaceFirst(q, n))) == multiset(Params(q)) + multiset{n}
  {
    if q[0] != Hole {
      ReplaceFirstNumbers(q[1..], n);
      assert ReplaceFirst(q, n)[1..] == ReplaceFirst(q[1..], n);
    } else {
      assert ReplaceFirst(q, n)[1..] == q[1..];
    }
  }

  // ---------------------------------------------------------------- rows of three placeholders

  /** The text of value tuple `i` of a multi-row INSERT: `($3i+1, $3i+2, $3i+3)` followed by ";"
      for the last tuple and by "," for the others. */
  function RowText(i: nat, last: bool): Query {
    [Text("("), Param(3 * i + 1), Text(", "), Param(3 * i + 2), Text(", "), Param(3 * i + 3),
     Text(if last then ");" else "),")]
  }

  /** The first `k` of `n` value tuples. */
  function Rows(k: nat, n: nat): Query {
    if k == 0 then [] else Rows(k - 1, n) + RowText(k - 1, k - 1 == n - 1)
  }

  lemma RowTextNumbers(i: nat, last: bool)
    ensures Holes(RowText(i, last)) == 0
    ensures Params(RowText(i, last)) == [3 * i + 1, 3 * i + 2, 3 * i + 3]
  {
    var r := RowText(i, last);
    assert Params(r[6..]) == [] && Holes(r[6..]) == 0;
    assert r[5..][1..] == r[6..];
    assert Params(r[5..]) == [3 * i + 3] && Holes(r[5..]) == 0;
    assert r[4..][1..] == r[5..];
    assert Params(r[4..]) == [3 * i + 3] && Holes(r[4..]) == 0;
    assert r[3..][1..] == r[4..];
    assert Params(r[3..]) == [3 * i + 2, 3 * i + 3] && Holes(r[3..]) == 0;
    assert r[2..][1..] == r[3..];
    assert Params(r[2..]) == [3 * i + 2, 3 * i + 3] && Holes(r[2..]) == 0;
    assert r[1..][1..] == r[2..];
    assert Params(r[1..]) == [3 * i + 1, 3 * i + 2, 3 * i + 3] && Holes(r[1..]) == 0;
  }

  /** Tuple `i` occupies pieces 7i..7i+7; it closes with ";" exactly when it is the last one. */
  lemma {:induction false} RowsLayout(k: nat, n: nat)
    ensures |Rows(k, n)| == 7 * k
    ensures forall i :: 0 <= i < k ==> Rows(k, n)[7 * i..7 * i + 7] == RowText(i, i == n - 1)
  {
    if k > 0 {
      RowsLayout(k - 1, n);
      var prev := Rows(k - 1, n);
      forall i | 0 <= i < k ensures Rows(k, n)[7 * i..7 * i + 7] == RowText(i, i == n - 1) {
        if i < k - 1 {
          assert Rows(k, n)[7 * i..7 * i + 7] == prev[7 * i..7 * i + 7];
        } else {
          assert Rows(k, n)[7 * i..7 * i + 7] == RowText(k - 1, k - 1 == n - 1);
        }
      }
    }
  }

  /** The tuples number their placeholders $1..$3k in order, with no hole. */
  lemma {:induction false} RowsNumbering(k: nat, n: nat)
    ensures Holes(Rows(k, n)) == 0
    ensures Params(Rows(k, n)) == Upto(3 * k)
  {
    if k > 0 {
      RowsNumbering(k - 1, n);
      var row := RowText(k - 1, k - 1 == n - 1);
      HolesAppend(Rows(k - 1, n), row);
      ParamsAppend(Rows(k - 1, n), row);
      RowTextNumbers(k - 1, k - 1 == n - 1);
      assert Upto(3 * k) == Upto(3 * k - 1) + [3 * k];
      assert Upto(3 * k - 1) == Upto(3 * k - 2) + [3 * k - 1];
      assert Upto(3 * k - 2) == Upto(3 * k - 3) + [3 * k - 2];
    }
  }

  lemma UptoInStep(q: Query, n: nat)
    requires Holes(q) == 0 && Params(q) == Upto(n)
    ensures InStep(q, n)
  {
    UptoIndex(n);
    forall k | 1 <= k <= n ensures k in Params(q) {
      assert Params(q)[k - 1] == k;
    }
  }

  /** A statement made of a fixed head without holes or placeholders followed by `k` tuples has
      its placeholders and its `3k` values in step. */
  lemma RowsInStep(head: Query, k: nat)
    requires Holes(head) == 0 && Params(head) == []
    ensures InStep(head + Rows(k, k), 3 * k)
  {
    RowsNumbering(k, k);
    HolesAppend(head, Rows(k, k));
    ParamsAppend(head, Rows(k, k));
    UptoInStep(head + Rows(k, k), 3 * k);
  }
}
