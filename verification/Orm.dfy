/** The two pieces of database behaviour the services lean on: field assignment and ORDER BY. */
module Orm {
  /** Primary keys: UUIDs in the source, fresh numbers here. */
  type Id = nat

  /**
  for field, value in update_data.items(): setattr(row, field, value)

  Items come in some order; no field occurs twice, so the order does not show.
  */
  method SetAttrs<F(==), V>(row: map<F, V>, updates: map<F, V>) returns (r: map<F, V>)
    ensures r == row + updates
  {
    r := row;
    var todo := updates.Keys;
    while todo != {}
      invariant todo <= updates.Keys
      invariant r == row + map f | f in updates && f !in todo :: updates[f]
      decreases todo
    {
      var f :| f in todo;
      todo := todo - {f};
      r := r[f := updates[f]];
    }
    assert updates == map f | f in updates && f !in todo :: updates[f];
  }

  // ---------------------------------------------------------------------------
  // ORDER BY
  // ---------------------------------------------------------------------------

  type Rank = map<Id, int>

  /** Every id has a rank and no two share it: then ORDER BY leaves the database no choice. */
  ghost predicate Ranked(ids: set<Id>, rank: Rank) {
    && ids <= rank.Keys
    && forall i, j :: i in ids && j in ids && i != j ==> rank[i] != rank[j]
  }

  ghost predicate IsLeast(m: Id, ids: set<Id>, rank: Rank)
    requires ids <= rank.Keys
  {
    m in ids && forall k :: k in ids ==> rank[m] <= rank[k]
  }

  lemma LeastExists(ids: set<Id>, rank: Rank)
    requires ids != {} && ids <= rank.Keys
    ensures exists m :: IsLeast(m, ids, rank)
    decreases |ids|
  {
    var m :| m in ids;
    var rest := ids - {m};
    if rest == {} {
      assert ids == {m};
      assert IsLeast(m, ids, rank);
    } else {
      LeastExists(rest, rank);
      var l :| IsLeast(l, rest, rank);
      assert IsLeast(if rank[l] < rank[m] then l else m, ids, rank);
    }
  }

  function Least(ids: set<Id>, rank: Rank): (m: Id)
    requires ids != {} && Ranked(ids, rank)
    ensures IsLeast(m, ids, rank)
  {
    LeastExists(ids, rank);
    var m :| m in ids && forall k :: k in ids ==> rank[m] <= rank[k];
    m
  }

  /** The ids in ascending rank. */
  function OrderBy(ids: set<Id>, rank: Rank): (list: seq<Id>)
    requires Ranked(ids, rank)
    ensures |list| == |ids|
    decreases |ids|
  {
    if ids == {} then []
    else var m := Least(ids, rank); [m] + OrderBy(ids - {m}, rank)
  }

  ghost predicate Ascending(list: seq<Id>, rank: Rank)
    requires forall i :: i in list ==> i in rank
  {
    list == [] || ((forall i :: i in list[1..] ==> rank[list[0]] < rank[i]) && Ascending(list[1..], rank))
  }

  /** list holds exactly these ids, by ascending rank. */
  ghost predicate Lists(list: seq<Id>, ids: set<Id>, rank: Rank)
    requires ids <= rank.Keys
  {
    (forall i :: i in list <==> i in ids) && Ascending(list, rank)
  }

  lemma {:induction false} OrderByLists(ids: set<Id>, rank: Rank)
    requires Ranked(ids, rank)
    ensures Lists(OrderBy(ids, rank), ids, rank)
    decreases |ids|
  {
    if ids != {} {
      var m := Least(ids, rank);
      var rest := OrderBy(ids - {m}, rank);
      OrderByLists(ids - {m}, rank);
      assert OrderBy(ids, rank)[1..] == rest;
    }
  }

  /** ORDER BY on distinct keys has one answer. */
  lemma {:induction false} OrderByUnique(list: seq<Id>, ids: set<Id>, rank: Rank)
    requires Ranked(ids, rank) && Lists(list, ids, rank)
    ensures list == OrderBy(ids, rank)
    decreases |ids|
  {
    if list == [] {
      assert ids == {};
    } else {
      assert list[0] in list && list == [list[0]] + list[1..];
      var m := Least(ids, rank);
      assert m in list;
      assert list[0] == m;
      OrderByUnique(list[1..], ids - {m}, rank);
    }
  }

  /** A sequence without one element. */
  function Without(list: seq<Id>, x: Id): seq<Id> {
    if list == [] then [] else (if list[0] == x then [] else [list[0]]) + Without(list[1..], x)
  }

  lemma {:induction false} WithoutContents(list: seq<Id>, x: Id)
    ensures forall i :: i in Without(list, x) <==> i in list && i != x
  {
    if list != [] {
      assert list == [list[0]] + list[1..];
      WithoutContents(list[1..], x);
    }
  }

  lemma {:induction false} WithoutAscending(list: seq<Id>, x: Id, rank: Rank)
    requires forall i :: i in list ==> i in rank
    requires Ascending(list, rank)
    ensures forall i :: i in Without(list, x) ==> i in rank
    ensures Ascending(Without(list, x), rank)
  {
    WithoutContents(list, x);
    if list != [] {
      var rest := Without(list[1..], x);
      WithoutAscending(list[1..], x, rank);
      WithoutContents(list[1..], x);
      if list[0] == x {
        assert Without(list, x) == rest;
      } else {
        AscendingCons(list[0], rest, rank);
      }
    }
  }

  lemma AscendingCons(x: Id, rest: seq<Id>, rank: Rank)
    requires x in rank && forall i :: i in rest ==> i in rank
    requires Ascending(rest, rank) && forall i :: i in rest ==> rank[x] < rank[i]
    ensures Ascending([x] + rest, rank)
  {
    assert ([x] + rest)[1..] == rest;
  }

  lemma {:induction false} WithoutAbsent(list: seq<Id>, x: Id)
    requires x !in list
    ensures Without(list, x) == list
  {
    if list != [] {
      WithoutAbsent(list[1..], x);
    }
  }

  /** Removing a row from a listing removes its element and moves nothing else. */
  lemma OrderByRemove(ids: set<Id>, rank: Rank, x: Id)
    requires Ranked(ids, rank)
    ensures OrderBy(ids - {x}, rank) == Without(OrderBy(ids, rank), x)
  {
    OrderByLists(ids, rank);
    WithoutContents(OrderBy(ids, rank), x);
    WithoutAscending(OrderBy(ids, rank), x, rank);
    OrderByUnique(Without(OrderBy(ids, rank), x), ids - {x}, rank);
  }

  /** Only the ranks of the listed ids matter. */
  lemma {:induction false} OrderByCongruent(ids: set<Id>, rank: Rank, other: Rank)
    requires Ranked(ids, rank) && ids <= other.Keys && forall i :: i in ids ==> other[i] == rank[i]
    ensures Ranked(ids, other)
    ensures OrderBy(ids, other) == OrderBy(ids, rank)
    decreases |ids|
  {
    if ids != {} {
      assert Least(ids, rank) == Least(ids, other);
      OrderByCongruent(ids - {Least(ids, rank)}, rank, other);
    }
  }
}
