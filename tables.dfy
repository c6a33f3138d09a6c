/** The SQL semantics the Room DAOs rely on, over a table kept as a sequence
    of rows in insertion order: `ORDER BY` (SQLite puts NULL before every
    value, so first when ascending and last when descending), `WHERE`,
    `LIMIT` (a negative limit means no limit), and the primary-key
    operations behind `@Insert(REPLACE)`, `@Update` and `@Delete`.  Rows are
    compared by a key function and identified by an id function, both
    passed in. */
module Tables {
  import opened Wrappers

  /** A nullable integer column value. */
  datatype Key = Null | Val(v: int)

  /** SQLite's ordering of a nullable integer column: NULL is the least value. */
  predicate KeyLe(a: Key, b: Key) {
    a.Null? || (b.Val? && a.v <= b.v)
  }

  /** `a` may come before `b` under `ORDER BY ... ASC` (or `DESC` when `desc`). */
  predicate InOrder(a: Key, b: Key, desc: bool) {
    if desc then KeyLe(b, a) else KeyLe(a, b)
  }

  predicate SortedBy<R>(s: seq<R>, key: R -> Key, desc: bool) {
    forall i, j :: 0 <= i < j < |s| ==> InOrder(key(s[i]), key(s[j]), desc)
  }

  /** Puts `x` before the first row it may precede, so that rows with equal
      keys keep their relative order. */
  function InsertSorted<R(==)>(x: R, s: seq<R>, key: R -> Key, desc: bool): (r: seq<R>)
    requires SortedBy(s, key, desc)
    ensures SortedBy(r, key, desc)
    ensures multiset(r) == multiset(s) + multiset{x}
  {
    if s == [] then [x]
    else if InOrder(key(x), key(s[0]), desc) then
      SortedHead(s, key, desc);
      SortedCons(x, s, key, desc);
      [x] + s
    else
      var rest := InsertSorted(x, s[1..], key, desc);
      SortedHead(s, key, desc);
      forall y | y in rest
        ensures InOrder(key(s[0]), key(y), desc)
      {
        assert y in multiset(rest);
      }
      SortedCons(s[0], rest, key, desc);
      assert [s[0]] + s[1..] == s;
      [s[0]] + rest
  }

  /** The first row of a sorted table may precede every row. */
  lemma SortedHead<R>(s: seq<R>, key: R -> Key, desc: bool)
    requires SortedBy(s, key, desc) && s != []
    ensures forall y :: y in s ==> InOrder(key(s[0]), key(y), desc)
  {
    forall y | y in s
      ensures InOrder(key(s[0]), key(y), desc)
    {
      var j :| 0 <= j < |s| && s[j] == y;
      if j > 0 {
        assert InOrder(key(s[0]), key(s[j]), desc);
      }
    }
  }

  /** A row that may precede every row of a sorted table can head it. */
  lemma SortedCons<R>(h: R, s: seq<R>, key: R -> Key, desc: bool)
    requires SortedBy(s, key, desc)
    requires forall y :: y in s ==> InOrder(key(h), key(y), desc)
    ensures SortedBy([h] + s, key, desc)
  {
    var r := [h] + s;
    forall i, j | 0 <= i < j < |r|
      ensures InOrder(key(r[i]), key(r[j]), desc)
    {
      if i == 0 {
        assert r[j] == s[j - 1] && s[j - 1] in s;
      } else {
        assert r[i] == s[i - 1] && r[j] == s[j - 1];
      }
    }
  }

  /** `ORDER BY key` (stable): the rows of `s`, sorted. */
  function OrderBy<R(==)>(s: seq<R>, key: R -> Key, desc: bool): (r: seq<R>)
    ensures SortedBy(r, key, desc)
    ensures multiset(r) == multiset(s)
  {
    if s == [] then []
    else
      assert [s[0]] + s[1..] == s;
      InsertSorted(s[0], OrderBy(s[1..], key, desc), key, desc)
  }

  /** `WHERE p`: the rows satisfying `p`, in their order. */
  function Where<R(==,!new)>(s: seq<R>, p: R -> bool): (r: seq<R>)
    ensures forall x :: multiset(r)[x] == if p(x) then multiset(s)[x] else 0
  {
    if s == [] then []
    else
      assert [s[0]] + s[1..] == s;
      if p(s[0]) then [s[0]] + Where(s[1..], p) else Where(s[1..], p)
  }

  /** Filtering keeps a sorted table sorted. */
  lemma {:induction false} WhereSorted<R(!new)>(s: seq<R>, p: R -> bool, key: R -> Key, desc: bool)
    requires SortedBy(s, key, desc)
    ensures SortedBy(Where(s, p), key, desc)
  {
    if s != [] {
      WhereSorted(s[1..], p, key, desc);
      var rest := Where(s[1..], p);
      SortedHead(s, key, desc);
      forall y | y in rest
        ensures InOrder(key(s[0]), key(y), desc)
      {
        assert y in multiset(rest);
        assert y in s;
      }
      assert SortedBy(s[1..], key, desc);
      SortedCons(s[0], rest, key, desc);
    }
  }

  /** `LIMIT n`: the first `n` rows; a negative `n` keeps them all. */
  function Limit<R>(s: seq<R>, n: int): (r: seq<R>)
    ensures |r| <= |s| && r == s[..|r|]
    ensures n >= 0 ==> |r| == if n < |s| then n else |s|
    ensures n < 0 ==> r == s
  {
    if n < 0 || |s| <= n then s else s[..n]
  }

  // ---- primary keys ----

  predicate DistinctIds<R>(s: seq<R>, id: R -> int) {
    forall i, j :: 0 <= i < j < |s| ==> id(s[i]) != id(s[j])
  }

  predicate HasId<R>(s: seq<R>, id: R -> int, k: int) {
    exists i :: 0 <= i < |s| && id(s[i]) == k
  }

  /** `SELECT * WHERE id = k`: the row with id `k`, or null. */
  function FindId<R(==)>(s: seq<R>, id: R -> int, k: int): (r: Option<R>)
    ensures r.Some? ==> r.value in s && id(r.value) == k
    ensures r.None? <==> !HasId(s, id, k)
  {
    if s == [] then None
    else if id(s[0]) == k then Some(s[0])
    else
      var r := FindId(s[1..], id, k);
      assert HasId(s[1..], id, k) ==> HasId(s, id, k) by {
        if HasId(s[1..], id, k) {
          var i :| 0 <= i < |s[1..]| && id(s[1..][i]) == k;
          assert id(s[i + 1]) == k;
        }
      }
      assert HasId(s, id, k) ==> HasId(s[1..], id, k) by {
        if HasId(s, id, k) {
          var i :| 0 <= i < |s| && id(s[i]) == k;
          assert i != 0 && id(s[1..][i - 1]) == k;
        }
      }
      r
  }

  /** With distinct ids, the row found for `k` is exactly the row of `s`
      carrying id `k`. */
  lemma FindIdUnique<R>(s: seq<R>, id: R -> int, x: R)
    requires DistinctIds(s, id) && x in s
    ensures FindId(s, id, id(x)) == Some(x)
  {
    var r := FindId(s, id, id(x));
    var i :| 0 <= i < |s| && s[i] == x;
    assert HasId(s, id, id(x));
    var j :| 0 <= j < |s| && s[j] == r.value;
  }

  /** `UPDATE ... WHERE id = id(row)`: the row with that id becomes `row`. */
  function ReplaceId<R>(s: seq<R>, id: R -> int, row: R): (r: seq<R>)
    ensures |r| == |s|
    ensures forall i :: 0 <= i < |s| ==> r[i] == if id(s[i]) == id(row) then row else s[i]
  {
    if s == [] then []
    else [if id(s[0]) == id(row) then row else s[0]] + ReplaceId(s[1..], id, row)
  }

  /** `DELETE ... WHERE id = k`. */
  function RemoveId<R(==,!new)>(s: seq<R>, id: R -> int, k: int): (r: seq<R>)
    ensures forall x :: x in r <==> x in s && id(x) != k
  {
    if s == [] then []
    else
      var rest := RemoveId(s[1..], id, k);
      assert [s[0]] + s[1..] == s;
      if id(s[0]) != k then [s[0]] + rest else rest
  }

  /** `@Insert(onConflict = REPLACE)`: overwrite the row with the same id, or
      add the row at the end. */
  function Upsert<R(==)>(s: seq<R>, id: R -> int, row: R): seq<R> {
    if HasId(s, id, id(row)) then ReplaceId(s, id, row) else s + [row]
  }

  /** What replacing leaves in the table: `row` is the only row with its id
      (when there was one before), every other row is as it was, and ids
      stay distinct. */
  lemma ReplaceIdSpec<R>(s: seq<R>, id: R -> int, row: R)
    requires DistinctIds(s, id)
    ensures var r := ReplaceId(s, id, row);
            && DistinctIds(r, id)
            && (HasId(s, id, id(row)) <==> row in r)
            && (forall x :: x in r && id(x) == id(row) ==> x == row)
            && (forall x :: id(x) != id(row) ==> (x in r <==> x in s))
  {
    var r := ReplaceId(s, id, row);
    forall i, j | 0 <= i < j < |r|
      ensures id(r[i]) != id(r[j])
    {
      assert id(s[i]) != id(s[j]);
    }
    if HasId(s, id, id(row)) {
      var i :| 0 <= i < |s| && id(s[i]) == id(row);
      assert r[i] == row;
    }
    if row in r {
      var i :| 0 <= i < |r| && r[i] == row;
      assert id(s[i]) == id(row);
    }
    forall x | x in r && id(x) == id(row)
      ensures x == row
    {
      var i :| 0 <= i < |r| && r[i] == x;
    }
    forall x | id(x) != id(row)
      ensures x in r <==> x in s
    {
      if x in r {
        var i :| 0 <= i < |r| && r[i] == x;
        assert s[i] == x;
      }
      if x in s {
        var i :| 0 <= i < |s| && s[i] == x;
        assert r[i] == x;
      }
    }
  }

  /** What inserting with REPLACE leaves in the table: `row` is in it and is
      the only row with its id, every other row is as it was, and ids stay
      distinct. */
  lemma UpsertSpec<R>(s: seq<R>, id: R -> int, row: R)
    requires DistinctIds(s, id)
    ensures var r := Upsert(s, id, row);
            && DistinctIds(r, id)
            && row in r
            && (forall x :: x in r && id(x) == id(row) ==> x == row)
            && (forall x :: id(x) != id(row) ==> (x in r <==> x in s))
  {
    if HasId(s, id, id(row)) {
      ReplaceIdSpec(s, id, row);
    } else {
      var r := s + [row];
      forall i, j | 0 <= i < j < |r|
        ensures id(r[i]) != id(r[j])
      {
        if j == |s| {
          assert id(s[i]) != id(row);
        }
      }
      forall x | x in r && id(x) == id(row)
        ensures x == row
      {
      }
    }
  }

  /** Replacing a second time with the same row changes nothing more. */
  lemma ReplaceIdTwice<R>(s: seq<R>, id: R -> int, row: R)
    ensures ReplaceId(ReplaceId(s, id, row), id, row) == ReplaceId(s, id, row)
  {
    var once := ReplaceId(s, id, row);
    var twice := ReplaceId(once, id, row);
    forall i | 0 <= i < |s|
      ensures twice[i] == once[i]
    {
    }
  }

  /** After replacing a row that was present, looking its id up finds the
      new row; other ids find what they found before. */
  lemma FindReplaced<R>(s: seq<R>, id: R -> int, row: R, k: int)
    requires DistinctIds(s, id) && HasId(s, id, id(row))
    ensures FindId(ReplaceId(s, id, row), id, id(row)) == Some(row)
    ensures k != id(row) ==> FindId(ReplaceId(s, id, row), id, k) == FindId(s, id, k)
  {
    var r := ReplaceId(s, id, row);
    ReplaceIdSpec(s, id, row);
    FindIdUnique(r, id, row);
    if k != id(row) {
      if HasId(s, id, k) {
        var x := FindId(s, id, k).value;
        FindIdUnique(s, id, x);
        FindIdUnique(r, id, x);
      } else {
        assert !HasId(r, id, k);
      }
    }
  }

  /** A row whose id lies above every id in use is added at the end. */
  lemma UpsertFresh<R>(s: seq<R>, id: R -> int, lastId: int, row: R)
    requires WellKeyed(s, id, lastId) && id(row) > lastId
    ensures Upsert(s, id, row) == s + [row]
  {
    assert !HasId(s, id, id(row));
  }

  /** A second replacement of the same id overrides the first. */
  lemma ReplaceIdOverride<R>(s: seq<R>, id: R -> int, first: R, second: R)
    requires id(first) == id(second)
    ensures ReplaceId(ReplaceId(s, id, first), id, second) == ReplaceId(s, id, second)
  {
    var twice := ReplaceId(ReplaceId(s, id, first), id, second);
    forall i | 0 <= i < |s| ensures twice[i] == ReplaceId(s, id, second)[i] { }
  }

  /** A non-empty list has id `k` exactly when its front or its last row has. */
  lemma HasIdSnoc<R>(s: seq<R>, id: R -> int, k: int)
    requires s != []
    ensures HasId(s, id, k) <==> HasId(s[..|s| - 1], id, k) || id(s[|s| - 1]) == k
  {
    var front := s[..|s| - 1];
    if HasId(s, id, k) {
      var i :| 0 <= i < |s| && id(s[i]) == k;
      if i < |front| {
        assert id(front[i]) == k;
      }
    }
    if HasId(front, id, k) {
      var i :| 0 <= i < |front| && id(front[i]) == k;
      assert id(s[i]) == k;
    }
  }

  /** Deleting by id keeps the other rows and the distinctness of ids. */
  lemma {:induction false} RemoveIdDistinct<R(!new)>(s: seq<R>, id: R -> int, k: int)
    requires DistinctIds(s, id)
    ensures DistinctIds(RemoveId(s, id, k), id)
  {
    if s != [] {
      RemoveIdDistinct(s[1..], id, k);
      var rest := RemoveId(s[1..], id, k);
      if id(s[0]) != k {
        forall j | 0 <= j < |rest|
          ensures id(s[0]) != id(rest[j])
        {
          assert rest[j] in s[1..];
        }
      }
    }
  }

  /** Filtering keeps the distinctness of ids. */
  lemma {:induction false} WhereDistinct<R(!new)>(s: seq<R>, p: R -> bool, id: R -> int)
    requires DistinctIds(s, id)
    ensures DistinctIds(Where(s, p), id)
  {
    if s != [] {
      WhereDistinct(s[1..], p, id);
      var rest := Where(s[1..], p);
      if p(s[0]) {
        forall j | 0 <= j < |rest|
          ensures id(s[0]) != id(rest[j])
        {
          assert rest[j] in multiset(rest);
          assert rest[j] in s[1..];
        }
      }
    }
  }

  // ---- AUTOINCREMENT tables ----

  /** The key invariant of a table with an AUTOINCREMENT primary key whose
      counter is `lastId`: ids are distinct, none is 0 (0 asks for a fresh
      id), and none exceeds the counter. */
  predicate WellKeyed<R>(s: seq<R>, id: R -> int, lastId: int) {
    && lastId >= 0
    && DistinctIds(s, id)
    && forall i :: 0 <= i < |s| ==> id(s[i]) != 0 && id(s[i]) <= lastId
  }

  /** The id a REPLACE insert gives its row: a fresh one for id 0. */
  function AssignedId(requested: int, lastId: int): (r: int)
    requires lastId >= 0
    ensures r != 0 && (requested != 0 ==> r == requested)
    ensures requested == 0 ==> r > lastId
  {
    if requested == 0 then lastId + 1 else requested
  }

  lemma UpsertKeeps<R>(s: seq<R>, id: R -> int, lastId: int, row: R)
    requires WellKeyed(s, id, lastId) && id(row) != 0
    ensures WellKeyed(Upsert(s, id, row), id, if id(row) > lastId then id(row) else lastId)
  {
    UpsertSpec(s, id, row);
    var r := Upsert(s, id, row);
    forall i | 0 <= i < |r|
      ensures id(r[i]) != 0 && id(r[i]) <= (if id(row) > lastId then id(row) else lastId)
    {
      if id(r[i]) != id(row) {
        assert r[i] in r;
        var j :| 0 <= j < |s| && s[j] == r[i];
      }
    }
  }

  lemma ReplaceKeeps<R>(s: seq<R>, id: R -> int, lastId: int, row: R)
    requires WellKeyed(s, id, lastId)
    ensures WellKeyed(ReplaceId(s, id, row), id, lastId)
  {
    ReplaceIdSpec(s, id, row);
  }

  lemma RemoveKeeps<R(!new)>(s: seq<R>, id: R -> int, lastId: int, k: int)
    requires WellKeyed(s, id, lastId)
    ensures WellKeyed(RemoveId(s, id, k), id, lastId)
  {
    RemoveIdDistinct(s, id, k);
    var r := RemoveId(s, id, k);
    forall i | 0 <= i < |r|
      ensures id(r[i]) != 0 && id(r[i]) <= lastId
    {
      assert r[i] in r;
      var j :| 0 <= j < |s| && s[j] == r[i];
    }
  }

  lemma WhereKeeps<R(!new)>(s: seq<R>, p: R -> bool, id: R -> int, lastId: int)
    requires WellKeyed(s, id, lastId)
    ensures WellKeyed(Where(s, p), id, lastId)
  {
    WhereDistinct(s, p, id);
    var r := Where(s, p);
    forall i | 0 <= i < |r|
      ensures id(r[i]) != 0 && id(r[i]) <= lastId
    {
      assert r[i] in multiset(r);
      var j :| 0 <= j < |s| && s[j] == r[i];
    }
  }
}
