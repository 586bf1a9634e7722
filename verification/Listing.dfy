/**
 `WorkspaceRepository.list` and the filter/map pipelines that commands run over
 its result. Rows are listed by identity; creation times are not modelled.
 */
module Listing {
  import opened Domain
  import opened Store

  ghost predicate Increasing(ids: seq<EntityId>) {
    forall i, j :: 0 <= i < j < |ids| ==> ids[i] < ids[j]
  }

  predicate IsLeast(s: set<EntityId>, x: EntityId) {
    x in s && forall y :: y in s ==> x <= y
  }

  lemma {:induction false} HasLeast(s: set<EntityId>)
    requires s != {}
    ensures exists x :: IsLeast(s, x)
    decreases |s|
  {
    var x :| x in s;
    var rest := s - {x};
    if rest == {} {
      assert forall y :: y in s ==> y == x || y in rest;
      assert IsLeast(s, x);
    } else {
      HasLeast(rest);
      var least :| IsLeast(rest, least);
      var m := if x <= least then x else least;
      assert forall y :: y in s ==> y == x || y in rest;
      assert IsLeast(s, m);
    }
  }

  lemma LeastThenRest(s: set<EntityId>, least: EntityId, rest: seq<EntityId>)
    requires IsLeast(s, least) && Increasing(rest) && forall x :: x in rest <==> x in s - {least}
    ensures Increasing([least] + rest) && forall x :: x in [least] + rest <==> x in s
  {
    assert forall k :: 0 <= k < |rest| ==> rest[k] in rest;
  }

  function SortedIds(s: set<EntityId>): (ids: seq<EntityId>)
    ensures forall x :: x in ids <==> x in s
    ensures Increasing(ids)
    decreases |s|
  {
    if s == {} then []
    else
      HasLeast(s);
      var least :| IsLeast(s, least);
      var rest := SortedIds(s - {least});
      LeastThenRest(s, least, rest);
      [least] + rest
  }

  function ListIds(rows: Rows, kind: Kind): (ids: seq<EntityId>)
    ensures forall x :: x in ids <==> x in rows && KindOf(rows[x]) == kind
    ensures Increasing(ids)
  {
    SortedIds(set id | id in rows && KindOf(rows[id]) == kind)
  }

  /** `Array.filter` */
  function Select(ids: seq<EntityId>, keep: EntityId -> bool): (kept: seq<EntityId>)
    ensures forall x :: x in kept <==> x in ids && keep(x)
    ensures Increasing(ids) ==> Increasing(kept)
  {
    if ids == [] then []
    else
      var rest := Select(ids[1..], keep);
      if keep(ids[0]) then
        PrependIncreasing(ids, rest);
        [ids[0]] + rest
      else rest
  }

  lemma PrependIncreasing(ids: seq<EntityId>, rest: seq<EntityId>)
    requires ids != [] && forall x :: x in rest ==> x in ids[1..]
    requires Increasing(ids) ==> Increasing(rest)
    ensures Increasing(ids) ==> Increasing([ids[0]] + rest)
  {
    if Increasing(ids) {
      forall k | 0 <= k < |rest|
        ensures ids[0] < rest[k]
      {
        assert rest[k] in ids[1..];
        var i :| 0 <= i < |ids[1..]| && ids[1..][i] == rest[k];
      }
    }
  }

  function Inserts(entities: seq<Entity>): (ms: seq<Mutation>)
    ensures |ms| == |entities|
    ensures forall i :: 0 <= i < |ms| ==> ms[i] == Insert(entities[i])
  {
    seq(|entities|, i requires 0 <= i < |entities| => Insert(entities[i]))
  }

  function Updates(entities: seq<Entity>): (ms: seq<Mutation>)
    ensures |ms| == |entities|
    ensures forall i :: 0 <= i < |ms| ==> ms[i] == Update(entities[i], Before(entities[i]))
  {
    seq(|entities|, i requires 0 <= i < |entities| => Update(entities[i], Before(entities[i])))
  }

  /** `entity.revision - 1` */
  function Before(e: Entity): nat { if e.revision == 0 then 0 else e.revision - 1 }

  /** `entities.map((item) => event(..., item.id, item.revision, ...))` */
  function EventsOf(entities: seq<Entity>, actor: Actor): (es: seq<Event>)
    ensures |es| == |entities|
    ensures forall i :: 0 <= i < |es| ==> es[i] == Event(entities[i].id, entities[i].revision, actor)
  {
    seq(|entities|, i requires 0 <= i < |entities| => Event(entities[i].id, entities[i].revision, actor))
  }

  /** The rows of `ids`, each with a new body. */
  function Revised(rows: Rows, ids: seq<EntityId>, revise: Entity -> Body): (entities: seq<Entity>)
    requires forall id :: id in ids ==> id in rows
    ensures |entities| == |ids|
    ensures forall i :: 0 <= i < |ids| ==> entities[i] == Updated(rows[ids[i]], revise(rows[ids[i]]))
  {
    seq(|ids|, i requires 0 <= i < |ids| => Updated(rows[ids[i]], revise(rows[ids[i]])))
  }
}
