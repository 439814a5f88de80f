/**
 * A Convex table as the application sees it: documents with an id, kept in
 * creation order. Ids are handed out in increasing order, so "first row of an
 * index range" is the first matching row of the sequence, and ordering by
 * `_creationTime` is ordering by id.
 */
module Tables {
  import opened Common

  type Id = nat

  datatype Row<T> = Row(id: Id, doc: T)

  /**
   * Ids grow along the table (creation order is id order) and the last one is
   * below `next`, the next id to hand out; so no two rows share an id.
   */
  predicate WellKeyed<T>(t: seq<Row<T>>, next: Id)
  {
    IdsIncreasing(t) && (t == [] || t[|t| - 1].id < next)
  }

  /** Each id is below the one after it. */
  predicate IdsIncreasing<T>(t: seq<Row<T>>)
  {
    |t| <= 1 || (t[0].id < t[1].id && IdsIncreasing(t[1..]))
  }

  /** Increasing ids: every earlier row has a smaller id than every later row. */
  lemma {:induction false} IncreasingIds<T>(t: seq<Row<T>>)
    requires IdsIncreasing(t)
    ensures forall i, j :: 0 <= i < j < |t| ==> t[i].id < t[j].id
  {
    if |t| > 1 {
      var tail := t[1..];
      IncreasingIds(tail);
      forall i, j | 0 <= i < j < |t| ensures t[i].id < t[j].id {
        assert t[j] == tail[j - 1];
        if i > 0 {
          assert t[i] == tail[i - 1];
        } else if j > 1 {
          assert t[1] == tail[0];
        }
      }
    }
  }

  /** The converse of `IncreasingIds`. */
  lemma {:induction false} IdsIncreasingOf<T>(t: seq<Row<T>>)
    requires forall i, j :: 0 <= i < j < |t| ==> t[i].id < t[j].id
    ensures IdsIncreasing(t)
  {
    if |t| > 1 {
      var tail := t[1..];
      forall i, j | 0 <= i < j < |tail| ensures tail[i].id < tail[j].id {
        assert tail[i] == t[i + 1] && tail[j] == t[j + 1];
      }
      IdsIncreasingOf(tail);
    }
  }

  lemma WellKeyedIds<T>(t: seq<Row<T>>, next: Id)
    requires WellKeyed(t, next)
    ensures forall i :: 0 <= i < |t| ==> t[i].id < next
    ensures forall i, j :: 0 <= i < |t| && 0 <= j < |t| && i != j ==> t[i].id != t[j].id
  {
    IncreasingIds(t);
    forall i | 0 <= i < |t| ensures t[i].id < next {
      if i < |t| - 1 {
        assert t[i].id < t[|t| - 1].id;
      }
    }
  }

  /** `ctx.db.insert`: appending a row under the next id keeps the table well keyed. */
  lemma InsertWellKeyed<T>(t: seq<Row<T>>, next: Id, doc: T)
    requires WellKeyed(t, next)
    ensures WellKeyed(t + [Row(next, doc)], next + 1)
  {
    WellKeyedIds(t, next);
    IncreasingIds(t);
    var r := t + [Row(next, doc)];
    forall i, j | 0 <= i < j < |r| ensures r[i].id < r[j].id {
      assert r[i] == t[i];
    }
    IdsIncreasingOf(r);
  }

  /** Rewriting documents in place keeps the ids, so the table stays well keyed. */
  lemma SameIdsWellKeyed<T>(t: seq<Row<T>>, u: seq<Row<T>>, next: Id)
    requires WellKeyed(t, next) && |u| == |t|
    requires forall i :: 0 <= i < |t| ==> u[i].id == t[i].id
    ensures WellKeyed(u, next)
  {
    IncreasingIds(t);
    IdsIncreasingOf(u);
  }

  predicate HasId<T>(t: seq<Row<T>>, id: Id)
  {
    exists i :: 0 <= i < |t| && t[i].id == id
  }

  /** `ctx.db.get(id)`. */
  function Get<T>(t: seq<Row<T>>, id: Id): (r: Option<T>)
    ensures r.Some? <==> HasId(t, id)
    ensures r.Some? ==> Row(id, r.value) in t
  {
    if t == [] then None
    else if t[0].id == id then Some(t[0].doc)
    else
      var r := Get(t[1..], id);
      assert HasId(t, id) ==> HasId(t[1..], id) by {
        if HasId(t, id) {
          var i :| 0 <= i < |t| && t[i].id == id;
          assert t[1..][i - 1].id == id;
        }
      }
      r
  }

  /** In a well-keyed table `get` finds the row that carries the id. */
  lemma {:induction false} GetRow<T>(t: seq<Row<T>>, next: Id, i: nat)
    requires WellKeyed(t, next) && i < |t|
    ensures Get(t, t[i].id) == Some(t[i].doc)
  {
    if i > 0 {
      IncreasingIds(t);
      assert t[0].id < t[i].id;
      TailWellKeyed(t, next);
      GetRow(t[1..], next, i - 1);
    }
  }

  /** `ctx.db.patch` / `replace`: the row with `id` now holds `doc`; every other row is untouched. */
  function Put<T>(t: seq<Row<T>>, id: Id, doc: T): (r: seq<Row<T>>)
    ensures |r| == |t|
    ensures forall i :: 0 <= i < |t| ==> r[i].id == t[i].id
    ensures forall i :: 0 <= i < |t| ==> r[i].doc == (if t[i].id == id then doc else t[i].doc)
  {
    seq(|t|, i requires 0 <= i < |t| => if t[i].id == id then Row(id, doc) else t[i])
  }

  /** In a well-keyed table, patching the id of row `k` rewrites that row alone. */
  lemma PutAt<T>(t: seq<Row<T>>, next: Id, k: nat, doc: T)
    requires WellKeyed(t, next) && k < |t|
    ensures Put(t, t[k].id, doc) == t[k := Row(t[k].id, doc)]
  {
    WellKeyedIds(t, next);
    var r := Put(t, t[k].id, doc);
    forall i | 0 <= i < |t| ensures r[i] == t[k := Row(t[k].id, doc)][i] {
      if i != k {
        assert t[i].id != t[k].id;
      }
    }
  }

  /** Patching the row inserted last rewrites that row alone. */
  lemma PutLast<T>(t: seq<Row<T>>, next: Id, row: Row<T>, doc: T)
    requires WellKeyed(t + [row], next)
    ensures Put(t + [row], row.id, doc) == t + [Row(row.id, doc)]
  {
    PutAt(t + [row], next, |t|, doc);
    assert (t + [row])[|t| := Row(row.id, doc)] == t + [Row(row.id, doc)];
  }

  /** After a patch, `get` returns the new document for the patched id and the old one for every other id. */
  lemma GetPut<T>(t: seq<Row<T>>, next: Id, id: Id, doc: T, k: Id)
    requires WellKeyed(t, next)
    ensures Get(Put(t, id, doc), k) == if k == id && HasId(t, id) then Some(doc) else Get(t, k)
  {
    var u := Put(t, id, doc);
    SameIdsWellKeyed(t, u, next);
    if HasId(t, k) {
      var i :| 0 <= i < |t| && t[i].id == k;
      GetRow(t, next, i);
      GetRow(u, next, i);
    }
  }

  /** `ctx.db.delete(id)`: every row with that id is gone, the rest keep their order. */
  function Delete<T>(t: seq<Row<T>>, id: Id): (r: seq<Row<T>>)
    ensures |r| <= |t|
  {
    if t == [] then []
    else (if t[0].id == id then [] else [t[0]]) + Delete(t[1..], id)
  }

  /** The rows left by `Delete` are rows of the table, none with the deleted id. */
  lemma {:induction false} DeleteSubset<T>(t: seq<Row<T>>, id: Id)
    ensures forall k :: 0 <= k < |Delete(t, id)| ==> Delete(t, id)[k] in t && Delete(t, id)[k].id != id
  {
    if t != [] {
      DeleteSubset(t[1..], id);
    }
  }

  /** Every row with another id survives `Delete`. */
  lemma {:induction false} DeleteKeeps<T>(t: seq<Row<T>>, id: Id, i: nat)
    requires i < |t| && t[i].id != id
    ensures t[i] in Delete(t, id)
  {
    if i > 0 {
      assert t[1..][i - 1] == t[i];
      DeleteKeeps(t[1..], id, i - 1);
    }
  }

  lemma TailWellKeyed<T>(t: seq<Row<T>>, next: Id)
    requires WellKeyed(t, next) && t != []
    ensures WellKeyed(t[1..], next)
    ensures forall k :: 0 <= k < |t| - 1 ==> t[0].id < t[1..][k].id
  {
    IncreasingIds(t);
    forall k | 0 <= k < |t| - 1 ensures t[0].id < t[1..][k].id {
      assert t[1..][k] == t[k + 1];
    }
  }

  lemma ConsWellKeyed<T>(x: Row<T>, rest: seq<Row<T>>, next: Id)
    requires WellKeyed(rest, next) && x.id < next
    requires forall k :: 0 <= k < |rest| ==> x.id < rest[k].id
    ensures WellKeyed([x] + rest, next)
  {
    var r := [x] + rest;
    assert r[1..] == rest;
    if rest != [] {
      assert r[1] == rest[0];
      assert r[|r| - 1] == rest[|rest| - 1];
    }
  }

  /** Removing rows keeps the rest in id order. */
  lemma {:induction false} DeleteWellKeyed<T>(t: seq<Row<T>>, next: Id, id: Id)
    requires WellKeyed(t, next)
    ensures WellKeyed(Delete(t, id), next)
  {
    if t != [] {
      var tail := t[1..];
      TailWellKeyed(t, next);
      DeleteWellKeyed(tail, next, id);
      var rest := Delete(tail, id);
      if t[0].id != id {
        DeleteSubset(tail, id);
        forall k | 0 <= k < |rest| ensures t[0].id < rest[k].id {
          var j :| 0 <= j < |tail| && tail[j] == rest[k];
        }
        WellKeyedIds(t, next);
        ConsWellKeyed(t[0], rest, next);
        assert Delete(t, id) == [t[0]] + rest;
      } else {
        assert Delete(t, id) == rest;
      }
    }
  }

  /** Deleting a row keeps the table well keyed and removes exactly that id. */
  lemma DeleteRemoves<T>(t: seq<Row<T>>, next: Id, id: Id)
    requires WellKeyed(t, next)
    ensures WellKeyed(Delete(t, id), next)
    ensures !HasId(Delete(t, id), id)
  {
    DeleteWellKeyed(t, next, id);
    DeleteSubset(t, id);
  }

  /** Deleting a row leaves what `get` returns for every other id. */
  lemma DeleteKeepsOthers<T>(t: seq<Row<T>>, next: Id, id: Id, k: Id)
    requires WellKeyed(t, next) && k != id
    ensures Get(Delete(t, id), k) == Get(t, k)
  {
    DeleteRemoves(t, next, id);
    DeleteSubset(t, id);
    var d := Delete(t, id);
    if HasId(t, k) {
      var i :| 0 <= i < |t| && t[i].id == k;
      DeleteKeeps(t, id, i);
      var j :| 0 <= j < |d| && d[j] == t[i];
      GetRow(t, next, i);
      GetRow(d, next, j);
    } else {
      forall j | 0 <= j < |d| ensures d[j].id != k {
        assert d[j] in t;
      }
    }
  }

  /** `.filter(p).collect()` over a table: the matching rows, in creation order. */
  function Where<T>(t: seq<Row<T>>, p: T -> bool): (r: seq<Row<T>>)
    ensures forall i :: 0 <= i < |r| ==> r[i] in t && p(r[i].doc)
    ensures forall i :: 0 <= i < |t| && p(t[i].doc) ==> t[i] in r
  {
    Filter(t, (row: Row<T>) => p(row.doc))
  }

  lemma {:induction false} WhereAppend<T>(a: seq<Row<T>>, b: seq<Row<T>>, p: T -> bool)
    ensures Where(a + b, p) == Where(a, p) + Where(b, p)
  {
    if a == [] {
      assert a + b == b;
    } else {
      assert (a + b)[1..] == a[1..] + b;
      WhereAppend(a[1..], b, p);
    }
  }

  /** Replacing row `k` changes the number of matching rows by what it removes and adds. */
  lemma WhereAtUpdate<T>(t: seq<Row<T>>, k: nat, row: Row<T>, p: T -> bool)
    requires k < |t|
    ensures |Where(t[k := row], p)|
            == |Where(t, p)| - (if p(t[k].doc) then 1 else 0) + (if p(row.doc) then 1 else 0)
  {
    assert t == t[..k] + [t[k]] + t[k + 1..];
    assert t[k := row] == t[..k] + [row] + t[k + 1..];
    WhereAppend(t[..k] + [t[k]], t[k + 1..], p);
    WhereAppend(t[..k], [t[k]], p);
    WhereAppend(t[..k] + [row], t[k + 1..], p);
    WhereAppend(t[..k], [row], p);
  }

  predicate IdsAscending<T>(t: seq<Row<T>>)
  {
    forall a, b :: 0 <= a < b < |t| ==> t[a].id < t[b].id
  }

  lemma WhereCons<T>(t: seq<Row<T>>, p: T -> bool)
    requires t != []
    ensures Where(t, p) == (if p(t[0].doc) then [t[0]] else []) + Where(t[1..], p)
  {
  }

  lemma ConsAscending<T>(x: Row<T>, rest: seq<Row<T>>)
    requires IdsAscending(rest) && forall k :: 0 <= k < |rest| ==> x.id < rest[k].id
    ensures IdsAscending([x] + rest)
  {
    var w := [x] + rest;
    forall a, b | 0 <= a < b < |w| ensures w[a].id < w[b].id {
      assert w[b] == rest[b - 1];
      if a > 0 {
        assert w[a] == rest[a - 1];
      }
    }
  }

  /** The matching rows keep creation order, so their ids increase. */
  lemma {:induction false} WhereIdsIncrease<T>(t: seq<Row<T>>, p: T -> bool)
    requires IdsAscending(t)
    ensures IdsAscending(Where(t, p))
  {
    if t != [] {
      var tail := t[1..];
      assert IdsAscending(tail) by {
        assert forall a :: 0 <= a < |tail| ==> tail[a] == t[a + 1];
      }
      WhereIdsIncrease(tail, p);
      var rest := Where(tail, p);
      WhereCons(t, p);
      if p(t[0].doc) {
        forall k | 0 <= k < |rest| ensures t[0].id < rest[k].id {
          var j :| 0 <= j < |tail| && tail[j] == rest[k];
          assert tail[j] == t[j + 1];
        }
        ConsAscending(t[0], rest);
      }
    }
  }

  /** The position of the earliest row whose document satisfies `p`, or `|t|`. */
  function FirstIndex<T>(t: seq<Row<T>>, p: T -> bool): (k: nat)
    ensures k <= |t|
    ensures forall i :: 0 <= i < k ==> !p(t[i].doc)
    ensures k < |t| ==> p(t[k].doc)
  {
    if t == [] || p(t[0].doc) then 0 else 1 + FirstIndex(t[1..], p)
  }

  /** `.filter(p).first()`: the earliest matching row, if any. */
  function First<T>(t: seq<Row<T>>, p: T -> bool): (r: Option<Row<T>>)
    ensures r.None? <==> forall i :: 0 <= i < |t| ==> !p(t[i].doc)
    ensures r.Some? ==> r.value == t[FirstIndex(t, p)]
  {
    var k := FirstIndex(t, p);
    if k < |t| then Some(t[k]) else None
  }

  /** The documents of a list of rows. */
  function Docs<T>(t: seq<Row<T>>): (r: seq<T>)
    ensures |r| == |t| && forall i :: 0 <= i < |t| ==> r[i] == t[i].doc
  {
    seq(|t|, i requires 0 <= i < |t| => t[i].doc)
  }
}
