/**
 * The three query shapes the endpoints use on a table, stated over a sequence of rows in
 * table order: `.filter(...).first()`, `.filter(...)` and `.offset(skip).limit(limit)`.
 * Table order is one fixed scan order, the order of insertion; the queries have no
 * `ORDER BY`, so the database itself promises no order.
 */
module Query {
  import opened Common

  /** Position of the first row that passes `p`, if any. */
  function FindIndex<T>(rows: seq<T>, p: T -> bool): (r: Option<nat>)
    ensures r.None? <==> forall i :: 0 <= i < |rows| ==> !p(rows[i])
    ensures r.Some? ==> r.value < |rows| && p(rows[r.value])
    ensures r.Some? ==> forall j :: 0 <= j < r.value ==> !p(rows[j])
  {
    if |rows| == 0 then None
    else if p(rows[0]) then Some(0)
    else
      match FindIndex(rows[1..], p)
      case None => None
      case Some(k) => Some(k + 1)
  }

  /** `query.filter(p).first()`: the first row that passes `p`, if any. */
  function First<T>(rows: seq<T>, p: T -> bool): (r: Option<T>)
    ensures r.None? <==> forall i :: 0 <= i < |rows| ==> !p(rows[i])
    ensures r.Some? ==> r.value in rows && p(r.value)
  {
    match FindIndex(rows, p)
    case None => None
    case Some(k) => Some(rows[k])
  }

  /** `query.filter(p)`: the rows that pass `p`, in table order. */
  function Where<T>(rows: seq<T>, p: T -> bool): (r: seq<T>)
    ensures |r| <= |rows|
    ensures forall i :: 0 <= i < |r| ==> r[i] in rows && p(r[i])
    ensures forall i :: 0 <= i < |rows| && p(rows[i]) ==> rows[i] in r
  {
    if |rows| == 0 then []
    else (if p(rows[0]) then [rows[0]] else []) + Where(rows[1..], p)
  }

  /** `query.offset(skip).limit(limit)`: at most `limit` rows, starting at position `skip`. */
  function Window<T>(rows: seq<T>, skip: nat, limit: nat): (r: seq<T>)
    ensures |r| <= limit && |r| <= |rows|
    ensures |r| == if skip >= |rows| then 0 else Min(limit, |rows| - skip)
    ensures forall k :: 0 <= k < |r| ==> skip + k < |rows| && r[k] == rows[skip + k]
  {
    if skip >= |rows| then [] else rows[skip..Min(skip + limit, |rows|)]
  }

  /** The conjunction of two row predicates. */
  function And<T>(p: T -> bool, q: T -> bool): T -> bool {
    (x: T) => p(x) && q(x)
  }

  /** Filtering by two predicates in turn is filtering by their conjunction. */
  lemma {:induction false} WhereWhere<T>(rows: seq<T>, p: T -> bool, q: T -> bool)
    ensures Where(Where(rows, p), q) == Where(rows, And(p, q))
  {
    if |rows| > 0 {
      WhereWhere(rows[1..], p, q);
      var head := if p(rows[0]) then [rows[0]] else [];
      WhereConcat(head, Where(rows[1..], p), q);
    }
  }

  /** Filtering distributes over concatenation. */
  lemma {:induction false} WhereConcat<T>(a: seq<T>, b: seq<T>, p: T -> bool)
    ensures Where(a + b, p) == Where(a, p) + Where(b, p)
  {
    if |a| > 0 {
      assert (a + b)[1..] == a[1..] + b;
      WhereConcat(a[1..], b, p);
    } else {
      assert a + b == b;
    }
  }

  /** Two predicates that agree on every row select the same rows. */
  lemma {:induction false} WhereSame<T>(rows: seq<T>, p: T -> bool, q: T -> bool)
    requires forall i :: 0 <= i < |rows| ==> p(rows[i]) == q(rows[i])
    ensures Where(rows, p) == Where(rows, q)
  {
    if |rows| > 0 {
      WhereSame(rows[1..], p, q);
    }
  }

  /** A filter that rejects every row yields nothing. */
  lemma {:induction false} WhereNone<T>(rows: seq<T>, p: T -> bool)
    requires forall i :: 0 <= i < |rows| ==> !p(rows[i])
    ensures Where(rows, p) == []
  {
    if |rows| > 0 {
      WhereNone(rows[1..], p);
    }
  }

  /** Two consecutive pages together are the page spanning both. */
  lemma WindowSplit<T>(rows: seq<T>, skip: nat, a: nat, b: nat)
    ensures Window(rows, skip, a) + Window(rows, skip + a, b) == Window(rows, skip, a + b)
  {
    var whole := Window(rows, skip, a + b);
    var joined := Window(rows, skip, a) + Window(rows, skip + a, b);
    assert |joined| == |whole|;
    forall k | 0 <= k < |whole| ensures joined[k] == whole[k] {
      if k >= |Window(rows, skip, a)| {
        assert joined[k] == Window(rows, skip + a, b)[k - a];
      }
    }
  }
}
