/** What the data-access client does to a table on the dashboards' behalf:
    filter by a condition, order by a column, limit the count, update by id.
    Tables are sequences of rows in insertion order. */
module Query {
  import opened Schema

  // ---------------------------------------------------------------- filter

  /** The rows of `s` that satisfy `keep`, in their original order. */
  function Filter<T(!new)>(s: seq<T>, keep: T -> bool): (r: seq<T>)
    ensures |r| <= |s|
    ensures forall x :: x in r <==> x in s && keep(x)
    ensures forall i :: 0 <= i < |r| ==> keep(r[i])
  {
    if s == [] then []
    else (if keep(s[0]) then [s[0]] else []) + Filter(s[1..], keep)
  }

  lemma {:induction false} FilterAppend<T(!new)>(a: seq<T>, b: seq<T>, keep: T -> bool)
    ensures Filter(a + b, keep) == Filter(a, keep) + Filter(b, keep)
  {
    if a == [] {
      assert a + b == b;
    } else {
      assert (a + b)[1..] == a[1..] + b;
      FilterAppend(a[1..], b, keep);
    }
  }

  /** Filtering a table with one more row at the end. */
  lemma FilterSnoc<T(!new)>(s: seq<T>, x: T, keep: T -> bool)
    ensures Filter(s + [x], keep) == Filter(s, keep) + (if keep(x) then [x] else [])
  {
    FilterAppend(s, [x], keep);
    assert [x][1..] == [];
  }

  /** Taking one row out of a table lowers the count of a filter by one exactly when that row passes it. */
  lemma FilterCountRemove<T(!new)>(b: seq<T>, k: nat, keep: T -> bool)
    requires k < |b|
    ensures |Filter(b, keep)| == |Filter(b[..k] + b[k + 1..], keep)| + (if keep(b[k]) then 1 else 0)
  {
    assert b == b[..k] + ([b[k]] + b[k + 1..]);
    FilterAppend(b[..k], [b[k]] + b[k + 1..], keep);
    FilterAppend([b[k]], b[k + 1..], keep);
    FilterAppend(b[..k], b[k + 1..], keep);
  }

  /** The first row of `a` sits somewhere in its permutation `b`; without it, the rest of
      both still hold the same rows. */
  lemma MatchFirst<T>(a: seq<T>, b: seq<T>) returns (k: nat)
    requires a != [] && multiset(a) == multiset(b)
    ensures k < |b| && b[k] == a[0]
    ensures multiset(a[1..]) == multiset(b[..k] + b[k + 1..])
  {
    assert a[0] in multiset(b);
    k :| 0 <= k < |b| && b[k] == a[0];
    assert a == [a[0]] + a[1..];
    assert multiset(a[1..]) == multiset(a) - multiset{a[0]};
    assert b == b[..k] + [b[k]] + b[k + 1..];
    assert multiset(b[..k] + b[k + 1..]) == multiset(b) - multiset{b[k]};
  }

  /** How many rows satisfy `keep` depends only on which rows there are, not on their order. */
  lemma {:induction false} FilterCountPermutation<T(!new)>(a: seq<T>, b: seq<T>, keep: T -> bool)
    requires multiset(a) == multiset(b)
    ensures |Filter(a, keep)| == |Filter(b, keep)|
    decreases |a|
  {
    if a == [] {
      assert |b| == |multiset(b)| == 0;
    } else {
      var k := MatchFirst(a, b);
      FilterCountPermutation(a[1..], b[..k] + b[k + 1..], keep);
      FilterCountRemove(b, k, keep);
    }
  }

  /** `filter(...).length`: how many rows satisfy `keep`. */
  function Count<T(!new)>(s: seq<T>, keep: T -> bool): (n: nat)
    ensures n <= |s|
    ensures n == 0 <==> forall i :: 0 <= i < |s| ==> !keep(s[i])
    ensures n == |s| <==> forall i :: 0 <= i < |s| ==> keep(s[i])
  {
    var r := Filter(s, keep);
    assert r != [] ==> r[0] in r;
    FilterKeepsAll(s, keep);
    |r|
  }

  /** A filter drops nothing exactly when every row passes it. */
  lemma {:induction false} FilterKeepsAll<T(!new)>(s: seq<T>, keep: T -> bool)
    ensures |Filter(s, keep)| == |s| <==> forall i :: 0 <= i < |s| ==> keep(s[i])
  {
    if s != [] {
      FilterKeepsAll(s[1..], keep);
      if forall i :: 0 <= i < |s| ==> keep(s[i]) {
        assert forall i :: 0 <= i < |s[1..]| ==> keep(s[1..][i]) by {
          forall i | 0 <= i < |s[1..]| ensures keep(s[1..][i]) {
            assert s[1..][i] == s[i + 1];
          }
        }
      } else {
        var i :| 0 <= i < |s| && !keep(s[i]);
        if i > 0 {
          assert s[1..][i - 1] == s[i];
        }
      }
    }
  }

  /** Filtering by `All` keeps the table as it is. */
  lemma {:induction false} FilterTrue<T(!new)>(s: seq<T>)
    ensures Filter(s, All()) == s
  {
    if s != [] {
      FilterTrue(s[1..]);
      assert s == [s[0]] + s[1..];
    }
  }

  // ---------------------------------------------------------------- update

  /** `update(f).eq("id", id)`: every row with that id is rewritten by `f`, all others are kept. */
  function UpdateById<T>(t: seq<Row<T>>, id: Id, f: T -> T): (r: seq<Row<T>>)
    ensures |r| == |t|
    ensures forall i :: 0 <= i < |t| && t[i].id != id ==> r[i] == t[i]
    ensures forall i :: 0 <= i < |t| && t[i].id == id ==>
              r[i] == Row(t[i].id, t[i].createdAt, f(t[i].data))
  {
    seq(|t|, i requires 0 <= i < |t| => if t[i].id == id then t[i].(data := f(t[i].data)) else t[i])
  }

  // ---------------------------------------------------------------- keys

  /** Ids below the store's counter and pairwise distinct. */
  ghost predicate WellKeyed<T>(t: seq<Row<T>>, bound: Id)
  {
    && (forall i :: 0 <= i < |t| ==> t[i].id < bound)
    && (forall i, j :: 0 <= i < j < |t| ==> t[i].id != t[j].id)
  }

  /** `after` is `before` followed by rows holding `added`, all created at `now`. */
  ghost predicate Appended<T>(after: seq<Row<T>>, before: seq<Row<T>>, added: seq<T>, now: Timestamp)
  {
    && |after| == |before| + |added|
    && after[..|before|] == before
    && forall k :: 0 <= k < |added| ==> after[|before| + k].createdAt == now && after[|before| + k].data == added[k]
  }

  /** Rows for a batch insert: consecutive fresh ids from `first`, one creation time. */
  function RowsFrom<T>(items: seq<T>, first: Id, now: Timestamp): (r: seq<Row<T>>)
    ensures |r| == |items|
    ensures forall k :: 0 <= k < |r| ==> r[k] == Row(first + k, now, items[k])
  {
    seq(|items|, k requires 0 <= k < |items| => Row(first + k, now, items[k]))
  }

  lemma WellKeyedAppend<T>(t: seq<Row<T>>, bound: Id, rows: seq<Row<T>>, count: nat)
    requires WellKeyed(t, bound)
    requires forall k :: 0 <= k < |rows| ==> rows[k].id == bound + k
    requires |rows| <= count
    ensures WellKeyed(t + rows, bound + count)
  {
    var u := t + rows;
    forall i, j | 0 <= i < j < |u| ensures u[i].id != u[j].id {
      if j >= |t| {
        assert u[j].id == bound + (j - |t|);
        if i >= |t| {
          assert u[i].id == bound + (i - |t|);
        }
      }
    }
  }

  lemma WellKeyedUpdate<T>(t: seq<Row<T>>, bound: Id, id: Id, f: T -> T)
    requires WellKeyed(t, bound)
    ensures WellKeyed(UpdateById(t, id, f), bound)
  {
    var u := UpdateById(t, id, f);
    assert forall i :: 0 <= i < |t| ==> u[i].id == t[i].id;
  }

  lemma SplitAround<T>(s: seq<T>, i: nat)
    requires i < |s|
    ensures s == s[..i] + [s[i]] + s[i + 1..]
  {
  }

  /** With distinct ids, an update by id rewrites the one row carrying it and nothing else. */
  lemma UpdateSplit<T>(t: seq<Row<T>>, bound: Id, id: Id, f: T -> T, i: nat)
    requires WellKeyed(t, bound) && i < |t| && t[i].id == id
    ensures UpdateById(t, id, f) == t[..i] + [t[i].(data := f(t[i].data))] + t[i + 1..]
  {
    var u := UpdateById(t, id, f);
    var w := t[..i] + [t[i].(data := f(t[i].data))] + t[i + 1..];
    forall j | 0 <= j < |t| ensures u[j] == w[j] {
      if j < i {
        assert t[j].id != id;
      } else if j > i {
        assert t[j].id != id;
      }
    }
  }

  /** An update by an id no row carries changes nothing. */
  lemma UpdateAbsent<T>(t: seq<Row<T>>, id: Id, f: T -> T)
    requires forall j :: 0 <= j < |t| ==> t[j].id != id
    ensures UpdateById(t, id, f) == t
  {
  }

  /** Writing the same value twice is writing it once. */
  lemma UpdateIdempotent<T>(t: seq<Row<T>>, id: Id, f: T -> T)
    requires forall x :: f(f(x)) == f(x)
    ensures UpdateById(UpdateById(t, id, f), id, f) == UpdateById(t, id, f)
  {
    var u := UpdateById(t, id, f);
    forall j | 0 <= j < |t| ensures UpdateById(u, id, f)[j] == u[j] {
      if t[j].id == id {
        assert f(f(t[j].data)) == f(t[j].data);
      }
    }
  }

  /** How a count changes under an update by id: the old row leaves it, the rewritten one enters it. */
  lemma FilterCountUpdate<T(!new)>(t: seq<Row<T>>, bound: Id, id: Id, f: T -> T, i: nat, keep: Row<T> -> bool)
    requires WellKeyed(t, bound) && i < |t| && t[i].id == id
    ensures |Filter(UpdateById(t, id, f), keep)| + (if keep(t[i]) then 1 else 0)
         == |Filter(t, keep)| + (if keep(t[i].(data := f(t[i].data))) then 1 else 0)
  {
    var u := UpdateById(t, id, f);
    UpdateSplit(t, bound, id, f, i);
    assert u[..i] == t[..i] && u[i + 1..] == t[i + 1..];
    FilterCountRemove(t, i, keep);
    FilterCountRemove(u, i, keep);
  }

  // ---------------------------------------------------------------- order

  /** `le(a, b)`: `a` may be listed before `b`. */
  ghost predicate TotalPreorder<T(!new)>(le: (T, T) -> bool)
  {
    && (forall a, b :: le(a, b) || le(b, a))
    && (forall a, b, c :: le(a, b) && le(b, c) ==> le(a, c))
  }

  ghost predicate SortedBy<T>(s: seq<T>, le: (T, T) -> bool)
  {
    forall i, j :: 0 <= i < j < |s| ==> le(s[i], s[j])
  }

  /** Places `x` before the first element it may precede. */
  function InsertBy<T>(x: T, s: seq<T>, le: (T, T) -> bool): (r: seq<T>)
    ensures multiset(r) == multiset(s) + multiset{x}
    ensures |r| == |s| + 1
  {
    if s == [] || le(x, s[0]) then [x] + s
    else
      assert s == [s[0]] + s[1..];
      [s[0]] + InsertBy(x, s[1..], le)
  }

  /** `order(column)`: a permutation of `s` listed by `le` (insertion sort). */
  function SortBy<T>(s: seq<T>, le: (T, T) -> bool): (r: seq<T>)
    ensures multiset(r) == multiset(s)
    ensures |r| == |s|
  {
    if s == [] then []
    else
      assert s == [s[0]] + s[1..];
      InsertBy(s[0], SortBy(s[1..], le), le)
  }

  lemma {:induction false} InsertBySorted<T(!new)>(x: T, s: seq<T>, le: (T, T) -> bool)
    requires TotalPreorder(le) && SortedBy(s, le)
    ensures SortedBy(InsertBy(x, s, le), le)
  {
    if s == [] || le(x, s[0]) {
    } else {
      var tail := InsertBy(x, s[1..], le);
      InsertBySorted(x, s[1..], le);
      assert le(s[0], x);
      forall k | 0 <= k < |tail| ensures le(s[0], tail[k]) {
        assert tail[k] in multiset(tail);
        if tail[k] != x {
          assert tail[k] in multiset(s[1..]);
          var m :| 0 <= m < |s[1..]| && s[1..][m] == tail[k];
          assert s[m + 1] == tail[k];
        }
      }
    }
  }

  /** For any total preorder, `SortBy` yields a sorted permutation. */
  lemma {:induction false} SortBySorted<T(!new)>(s: seq<T>, le: (T, T) -> bool)
    requires TotalPreorder(le)
    ensures SortedBy(SortBy(s, le), le)
  {
    if s != [] {
      SortBySorted(s[1..], le);
      InsertBySorted(s[0], SortBy(s[1..], le), le);
    }
  }

  /** A listing keeps exactly the rows it was given, each as often as it was given. */
  lemma SortByMembers<T(!new)>(s: seq<T>, le: (T, T) -> bool)
    ensures multiset(SortBy(s, le)) == multiset(s)
    ensures forall x :: x in SortBy(s, le) <==> x in s
  {
    var r := SortBy(s, le);
    forall x ensures x in r <==> x in s {
      assert x in r <==> x in multiset(r);
      assert x in s <==> x in multiset(s);
    }
  }

  /** `limit(n)`. */
  function Take<T>(s: seq<T>, n: nat): (r: seq<T>)
    ensures |r| <= n && |r| <= |s|
    ensures |r| == if |s| <= n then |s| else n
    ensures r == s[..|r|]
  {
    if |s| <= n then s else s[..n]
  }

  /** Code-point lexicographic order on text. */
  predicate TextLe(a: string, b: string)
  {
    a == [] || (b != [] && (a[0] < b[0] || (a[0] == b[0] && TextLe(a[1..], b[1..]))))
  }

  lemma {:induction false} TextLeTotal(a: string, b: string)
    ensures TextLe(a, b) || TextLe(b, a)
  {
    if a != [] && b != [] && a[0] == b[0] {
      TextLeTotal(a[1..], b[1..]);
    }
  }

  lemma {:induction false} TextLeTransitive(a: string, b: string, c: string)
    requires TextLe(a, b) && TextLe(b, c)
    ensures TextLe(a, c)
  {
    if a != [] && b != [] && c != [] && a[0] == b[0] && b[0] == c[0] {
      TextLeTransitive(a[1..], b[1..], c[1..]);
    }
  }

  /** Ascending text order on a key of the row is a total preorder. */
  lemma TextKeyPreorder<T(!new)>(key: T -> string, le: (T, T) -> bool)
    requires forall a, b :: le(a, b) == TextLe(key(a), key(b))
    ensures TotalPreorder(le)
  {
    forall a, b ensures le(a, b) || le(b, a) {
      TextLeTotal(key(a), key(b));
    }
    forall a, b, c | le(a, b) && le(b, c) ensures le(a, c) {
      TextLeTransitive(key(a), key(b), key(c));
    }
  }

  /** `order("created_at", { ascending: false })`. */
  function NewestFirst<T(!new)>(): (le: (Row<T>, Row<T>) -> bool)
    ensures TotalPreorder(le)
    ensures forall a, b :: le(a, b) == (a.createdAt >= b.createdAt)
  {
    (a: Row<T>, b: Row<T>) => a.createdAt >= b.createdAt
  }

  /** `select().eq(...).order(...)`: exactly the rows passing `keep`, listed by `le`. */
  function Select<T(!new)>(t: seq<T>, keep: T -> bool, le: (T, T) -> bool): (r: seq<T>)
    requires TotalPreorder(le)
    ensures multiset(r) == multiset(Filter(t, keep))
    ensures forall x :: x in r <==> x in t && keep(x)
    ensures SortedBy(r, le)
  {
    SortBySorted(Filter(t, keep), le);
    SortByMembers(Filter(t, keep), le);
    SortBy(Filter(t, keep), le)
  }

  /** `select().order(...)` on a whole table. */
  function All<T(!new)>(): (keep: T -> bool)
    ensures forall x :: keep(x)
  {
    (x: T) => true
  }

  /** `select().eq(...).order(...).limit(n)`: the first `n` of the listing. Every row
      passing `keep` that is left out comes, in the order `le`, after every row kept. */
  function TopBy<T(!new)>(t: seq<T>, keep: T -> bool, le: (T, T) -> bool, n: nat): (r: seq<T>)
    requires TotalPreorder(le)
    ensures |r| == if |Filter(t, keep)| <= n then |Filter(t, keep)| else n
    ensures forall x :: x in r ==> x in t && keep(x)
    ensures multiset(r) <= multiset(Filter(t, keep))
    ensures SortedBy(r, le)
    ensures forall x, y :: x in r && y in t && keep(y) && y !in r ==> le(x, y)
  {
    var all := Select(t, keep, le);
    TakeSorted(all, n, le);
    Take(all, n)
  }

  /** The first `n` of a sorted listing are sorted, repeat no element, and precede every
      element left out. */
  lemma TakeSorted<T(!new)>(s: seq<T>, n: nat, le: (T, T) -> bool)
    requires SortedBy(s, le)
    ensures SortedBy(Take(s, n), le)
    ensures multiset(Take(s, n)) <= multiset(s)
    ensures forall x, y :: x in Take(s, n) && y in s && y !in Take(s, n) ==> le(x, y)
  {
    var r := Take(s, n);
    assert s == r + s[|r|..];
    forall x, y | x in r && y in s && y !in r ensures le(x, y) {
      var i :| 0 <= i < |r| && r[i] == x;
      var m :| 0 <= m < |s| && s[m] == y;
      assert s[i] == x && m >= |r|;
    }
  }

  /** `select().order("created_at", { ascending: false })` on a whole table: every row, newest first. */
  function AllNewestFirst<T(!new)>(t: seq<Row<T>>): (r: seq<Row<T>>)
    ensures multiset(r) == multiset(t)
    ensures forall i, j :: 0 <= i < j < |r| ==> r[i].createdAt >= r[j].createdAt
  {
    FilterTrue(t);
    Select(t, All(), NewestFirst())
  }

  /** `select().order("created_at", { ascending: false }).limit(n)` on a whole table. */
  function NewestN<T(!new)>(t: seq<Row<T>>, n: nat): (r: seq<Row<T>>)
    ensures |r| == if |t| <= n then |t| else n
    ensures forall x :: x in r ==> x in t
    ensures multiset(r) <= multiset(t)
    ensures forall i, j :: 0 <= i < j < |r| ==> r[i].createdAt >= r[j].createdAt
    ensures forall x, y :: x in r && y in t && y !in r ==> x.createdAt >= y.createdAt
  {
    FilterTrue(t);
    var all := Select(t, All(), NewestFirst());
    TakeSorted(all, n, NewestFirst());
    Take(all, n)
  }
}
