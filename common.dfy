/** Shared vocabulary of the model: optional values (JavaScript `undefined`),
    SQL parameter values, placeholder numbering, the `Math.ceil(total / limit)`
    page count, membership toggles and the "group rows by a key" reduce that
    the backend controllers and the frontend components all use. */
module Common {

  /** `undefined` / absent (None) or a present value (Some). */
  datatype Option<T> = None | Some(value: T) {
    function GetOr(default: T): T {
      match this
      case Some(v) => v
      case None => default
    }
  }

  /** What a handler sends: a status and a JSON body, which is a value, an
      `{ error }` or a `{ message }`. */
  datatype Body<T> = Json(value: T) | Failure(error: string) | Note(message: string)
  datatype Reply<T> = Reply(status: int, body: Body<T>)

  /** A value bound to a `$k` placeholder of a parameterised SQL statement. */
  datatype SqlValue =
    | Text(text: string)
    | Int(i: int)
    | Real(r: real)
    | IntList(ints: seq<int>)

  /** The placeholder numbers 1, 2, ..., n in emission order. */
  function Iota(n: nat): (r: seq<nat>)
    ensures |r| == n
  {
    if n == 0 then [] else Iota(n - 1) + [n]
  }

  /** The i-th placeholder (0-based) is `$(i+1)`. */
  lemma {:induction false} IotaIndex(n: nat, i: nat)
    requires i < n
    ensures Iota(n)[i] == i + 1
  {
    if i < n - 1 {
      IotaIndex(n - 1, i);
    }
  }

  /** `Math.ceil(total / limit)` for a positive limit. */
  function CeilDiv(total: nat, limit: nat): (r: nat)
    requires limit > 0
    ensures total <= r * limit
    ensures r > 0 ==> (r - 1) * limit < total
  {
    if total == 0 then 0 else 1 + CeilDiv(if total <= limit then 0 else total - limit, limit)
  }

  /** `LIMIT limit OFFSET offset` applied to an ordered result; PostgreSQL
      rejects a negative LIMIT or OFFSET (None). */
  function PageOfRows<T>(rows: seq<T>, offset: int, limit: int): (r: Option<seq<T>>)
    ensures r.None? <==> offset < 0 || limit < 0
    ensures r.Some? ==> |r.value| <= limit
    ensures r.Some? && offset >= |rows| ==> r.value == []
    ensures r.Some? ==> forall i | 0 <= i < |r.value| :: offset + i < |rows| && r.value[i] == rows[offset + i]
    ensures r.Some? && offset + limit <= |rows| ==> |r.value| == limit
    ensures r.Some? && offset < |rows| < offset + limit ==> |r.value| == |rows| - offset
    ensures r.Some? && offset < |rows| ==> |r.value| == if offset + limit <= |rows| then limit else |rows| - offset
  {
    if offset < 0 || limit < 0 then None
    else if offset >= |rows| then Some([])
    else if offset + limit <= |rows| then Some(rows[offset..offset + limit])
    else Some(rows[offset..])
  }

  /** `WHERE keep(row)` over a table scan, or `array.filter(keep)`: the rows
      that satisfy the predicate, in scan order. */
  function Select<T(!new)>(rows: seq<T>, keep: T -> bool): (r: seq<T>)
    ensures |r| <= |rows|
    ensures forall x :: x in r <==> x in rows && keep(x)
  {
    if rows == [] then []
    else Select(rows[..|rows| - 1], keep) + (if keep(rows[|rows| - 1]) then [rows[|rows| - 1]] else [])
  }

  /** `result.rows[0] || null` over a scan: the first row that satisfies
      the predicate, if any. */
  function First<T>(rows: seq<T>, keep: T -> bool): (r: Option<T>)
    ensures r.None? <==> forall i | 0 <= i < |rows| :: !keep(rows[i])
    ensures r.Some? ==> exists i | 0 <= i < |rows| :: rows[i] == r.value && keep(r.value)
                          && forall j | 0 <= j < i :: !keep(rows[j])
  {
    if rows == [] then None
    else if keep(rows[0]) then Some(rows[0])
    else
      var r := First(rows[1..], keep);
      assert r.Some? ==> exists i | 0 <= i < |rows[1..]| :: rows[1..][i] == r.value && keep(r.value)
                           && forall j | 0 <= j < i :: !keep(rows[1..][j]);
      r
  }

  /** A scan over two tables in a row selects from each in turn. */
  lemma {:induction false} SelectAppend<T(!new)>(a: seq<T>, b: seq<T>, keep: T -> bool)
    ensures Select(a + b, keep) == Select(a, keep) + Select(b, keep)
  {
    if b != [] {
      var n := |b| - 1;
      SelectAppend(a, b[..n], keep);
      assert (a + b)[..|a + b| - 1] == a + b[..n];
    } else {
      assert a + b == a;
    }
  }

  lemma {:induction false} SelectAll<T(!new)>(rows: seq<T>, keep: T -> bool)
    requires forall i | 0 <= i < |rows| :: keep(rows[i])
    ensures Select(rows, keep) == rows
  {
    if rows != [] {
      SelectAll(rows[..|rows| - 1], keep);
    }
  }

  /** The selection is shorter than the table exactly when some row fails
      the predicate: a DELETE's row count is positive iff a row matched. */
  lemma {:induction false} SelectDrops<T(!new)>(rows: seq<T>, keep: T -> bool)
    ensures |Select(rows, keep)| < |rows| <==> exists x | x in rows :: !keep(x)
  {
    if rows != [] {
      var init := rows[..|rows| - 1];
      var last := rows[|rows| - 1];
      SelectDrops(init, keep);
      assert rows == init + [last];
      assert Select(rows, keep) == Select(init, keep) + (if keep(last) then [last] else []);
      if exists x | x in rows :: !keep(x) {
        var x :| x in rows && !keep(x);
        if x != last {
          assert x in init;
        }
      }
    }
  }

  // ---------------------------------------------------------------------------
  // Selections toggled on and off (`includes ? filter(!==) : [...prev, x]`)

  /** `s.filter(y => y !== x)`: every element except x, in order. */
  function Without(s: seq<int>, x: int): (r: seq<int>)
    ensures forall y :: y in r <==> y in s && y != x
    ensures |r| <= |s|
  {
    if s == [] then []
    else if s[0] == x then Without(s[1..], x)
    else [s[0]] + Without(s[1..], x)
  }

  /** Remove x if it is selected, otherwise append it. */
  function Toggle(s: seq<int>, x: int): (r: seq<int>)
    ensures x in r <==> x !in s
    ensures forall y :: y != x ==> (y in r <==> y in s)
  {
    if x in s then Without(s, x) else s + [x]
  }

  lemma {:induction false} WithoutAbsent(s: seq<int>, x: int)
    requires x !in s
    ensures Without(s, x) == s
  {
    if s != [] {
      WithoutAbsent(s[1..], x);
    }
  }

  lemma {:induction false} WithoutAppended(s: seq<int>, x: int)
    requires x !in s
    ensures Without(s + [x], x) == s
  {
    if s == [] {
      assert [x][1..] == [];
    } else {
      assert (s + [x])[1..] == s[1..] + [x];
      WithoutAppended(s[1..], x);
    }
  }

  /** Toggling an unselected value twice gives back the same selection. */
  lemma ToggleTwiceRestores(s: seq<int>, x: int)
    requires x !in s
    ensures Toggle(Toggle(s, x), x) == s
  {
    WithoutAppended(s, x);
  }

  // ---------------------------------------------------------------------------
  // `rows.reduce((acc, row) => { (acc[key] ||= []).push(row); return acc }, {})`

  /** The values of the rows whose key is k, in input order. */
  function Group<T>(rows: seq<(string, T)>, k: string): seq<T>
  {
    if rows == [] then []
    else Group(rows[..|rows| - 1], k) + (if rows[|rows| - 1].0 == k then [rows[|rows| - 1].1] else [])
  }

  /** The set of keys that occur in the rows. */
  function Keys<T>(rows: seq<(string, T)>): set<string>
  {
    set i | 0 <= i < |rows| :: rows[i].0
  }

  /** The grouping reduce: one list per key that occurs, holding that key's
      rows in input order. */
  method GroupBy<T>(rows: seq<(string, T)>) returns (acc: map<string, seq<T>>)
    ensures acc.Keys == Keys(rows)
    ensures forall k :: k in acc ==> acc[k] == Group(rows, k)
  {
    acc := map[];
    var i := 0;
    while i < |rows|
      invariant 0 <= i <= |rows|
      invariant acc.Keys == Keys(rows[..i])
      invariant forall k :: k in acc ==> acc[k] == Group(rows[..i], k)
      invariant forall k :: k !in acc ==> Group(rows[..i], k) == []
    {
      var (key, row) := rows[i];
      assert rows[..i + 1][..i] == rows[..i];
      if key !in acc {
        acc := acc[key := []];
      }
      acc := acc[key := acc[key] + [row]];
      assert Keys(rows[..i + 1]) == Keys(rows[..i]) + {key} by {
        forall k | k in Keys(rows[..i + 1]) ensures k in Keys(rows[..i]) + {key} {
          var j :| 0 <= j < i + 1 && rows[..i + 1][j].0 == k;
          if j < i { assert rows[..i][j].0 == k; }
        }
        forall k | k in Keys(rows[..i]) ensures k in Keys(rows[..i + 1]) {
          var j :| 0 <= j < i && rows[..i][j].0 == k;
          assert rows[..i + 1][j].0 == k;
        }
        assert rows[..i + 1][i].0 == key;
      }
      i := i + 1;
    }
    assert rows[..i] == rows;
  }

  /** Each element paired with its key: the input of a grouping by a field. */
  function KeyedBy<T>(xs: seq<T>, key: T -> string): (r: seq<(string, T)>)
    ensures |r| == |xs|
    ensures forall i | 0 <= i < |xs| :: r[i] == (key(xs[i]), xs[i])
  {
    if xs == [] then [] else KeyedBy(xs[..|xs| - 1], key) + [(key(xs[|xs| - 1]), xs[|xs| - 1])]
  }

  /** Grouping by a field gives, for each key, the elements with that key
      in input order: the same list a filter on the key would give. */
  lemma {:induction false} GroupIsSelect<T(!new)>(xs: seq<T>, key: T -> string, k: string, keep: T -> bool)
    requires forall x :: keep(x) <==> key(x) == k
    ensures Group(KeyedBy(xs, key), k) == Select(xs, keep)
  {
    if xs != [] {
      var init := xs[..|xs| - 1];
      GroupIsSelect(init, key, k, keep);
      var rows := KeyedBy(xs, key);
      assert rows[..|rows| - 1] == KeyedBy(init, key);
    }
  }

  /** The keys of a grouping by a field are the values the field takes. */
  lemma KeysOfKeyedBy<T>(xs: seq<T>, key: T -> string)
    ensures Keys(KeyedBy(xs, key)) == set i | 0 <= i < |xs| :: key(xs[i])
  {
    var rows := KeyedBy(xs, key);
    forall c | c in set i | 0 <= i < |xs| :: key(xs[i])
      ensures c in Keys(rows)
    {
      var i :| 0 <= i < |xs| && key(xs[i]) == c;
      assert rows[i].0 == c;
    }
  }

  /** A group holds exactly as many values as there are rows with its key. */
  function CountKey<T>(rows: seq<(string, T)>, k: string): nat
  {
    if rows == [] then 0
    else CountKey(rows[..|rows| - 1], k) + (if rows[|rows| - 1].0 == k then 1 else 0)
  }

  /** Every row lands in its own key's group, at the position given by the
      number of earlier rows with that key (so input order is kept). */
  lemma {:induction false} RowInItsGroup<T>(rows: seq<(string, T)>, i: nat)
    requires i < |rows|
    ensures CountKey(rows[..i], rows[i].0) < |Group(rows, rows[i].0)|
    ensures Group(rows, rows[i].0)[CountKey(rows[..i], rows[i].0)] == rows[i].1
  {
    var k := rows[i].0;
    var front := rows[..|rows| - 1];
    GroupLength(rows[..i], k);
    if i == |rows| - 1 {
      assert front == rows[..i];
      GroupLength(front, k);
    } else {
      assert front[..i] == rows[..i] && front[i] == rows[i];
      RowInItsGroup(front, i);
    }
  }

  lemma {:induction false} GroupLength<T>(rows: seq<(string, T)>, k: string)
    ensures |Group(rows, k)| == CountKey(rows, k)
  {
    if rows != [] {
      GroupLength(rows[..|rows| - 1], k);
    }
  }

  /** The group lengths over all keys add up to the number of rows: each row is
      placed in exactly one list. */
  function SumCounts<T>(rows: seq<(string, T)>, ks: seq<string>): nat
  {
    if ks == [] then 0 else CountKey(rows, ks[0]) + SumCounts(rows, ks[1..])
  }

  lemma {:induction false} EveryRowInExactlyOneGroup<T>(rows: seq<(string, T)>, ks: seq<string>)
    requires forall i, j :: 0 <= i < j < |ks| ==> ks[i] != ks[j]
    requires Keys(rows) <= set k | k in ks
    ensures SumCounts(rows, ks) == |rows|
  {
    if rows == [] {
      SumCountsOfEmpty(rows, ks);
    } else {
      var front := rows[..|rows| - 1];
      var last := rows[|rows| - 1].0;
      assert Keys(front) <= Keys(rows) by {
        forall k | k in Keys(front) ensures k in Keys(rows) {
          var j :| 0 <= j < |front| && front[j].0 == k;
          assert rows[j].0 == k;
        }
      }
      EveryRowInExactlyOneGroup(front, ks);
      assert last in Keys(rows);
      SumCountsStep(rows, ks, last);
    }
  }

  lemma {:induction false} SumCountsOfEmpty<T>(rows: seq<(string, T)>, ks: seq<string>)
    requires rows == []
    ensures SumCounts(rows, ks) == 0
  {
    if ks != [] {
      SumCountsOfEmpty(rows, ks[1..]);
    }
  }

  lemma {:induction false} SumCountsStep<T>(rows: seq<(string, T)>, ks: seq<string>, last: string)
    requires rows != [] && rows[|rows| - 1].0 == last
    requires forall i, j :: 0 <= i < j < |ks| ==> ks[i] != ks[j]
    ensures SumCounts(rows, ks) == SumCounts(rows[..|rows| - 1], ks) + (if last in ks then 1 else 0)
  {
    if ks != [] {
      assert forall i, j :: 0 <= i < j < |ks[1..]| ==> ks[1..][i] != ks[1..][j] by {
        forall i, j | 0 <= i < j < |ks[1..]| ensures ks[1..][i] != ks[1..][j] {
          assert ks[1..][i] == ks[i + 1] && ks[1..][j] == ks[j + 1];
        }
      }
      SumCountsStep(rows, ks[1..], last);
      if ks[0] == last {
        assert last !in ks[1..] by {
          forall j | 0 <= j < |ks[1..]| ensures ks[1..][j] != last {
            assert ks[1..][j] == ks[j + 1];
          }
        }
      }
    }
  }
}
