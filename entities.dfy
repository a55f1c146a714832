/**
 * Recognised entities of src/index.js (`formatEntities`, `selectNewEntities`):
 * a speech segment carries entities such as (piece, "KNIGHT") or
 * (square, "F3"); segments of one utterance share a context id and are
 * re-sent as recognition refines, so entities already acted on are skipped.
 */
module Entities {
  import opened Wrappers

  /** A recognised sub-span: its type key, its text and its offset in the utterance. */
  datatype Entity = Entity(entityType: string, value: string, startPosition: int)

  /** One recognition update. `intent` is `None` when the segment carries no intent yet. */
  datatype Segment = Segment(contextId: string, intent: Option<string>, entities: seq<Entity>)

  /**
   * `formatEntities`: folds the entities, in order, into a record keyed by
   * entity type, each entity overwriting the value of an earlier one of its type.
   */
  function FormatEntities(es: seq<Entity>): (m: map<string, string>)
    ensures es != [] ==> es[|es| - 1].entityType in m && m[es[|es| - 1].entityType] == es[|es| - 1].value
  {
    if es == [] then map[]
    else
      var e := es[|es| - 1];
      FormatEntities(es[..|es| - 1])[e.entityType := e.value]
  }

  /** The record has a key for exactly the types that occur. */
  lemma {:induction false} FormatKeys(es: seq<Entity>)
    ensures FormatEntities(es).Keys == set e | e in es :: e.entityType
  {
    if es != [] {
      var init := es[..|es| - 1];
      FormatKeys(init);
      assert es == init + [es[|es| - 1]];
    }
  }

  /** Last one wins: the value recorded for a type is that of its last entity. */
  lemma {:induction false} FormatLastWins(es: seq<Entity>, i: int)
    requires 0 <= i < |es|
    requires forall j :: i < j < |es| ==> es[j].entityType != es[i].entityType
    ensures es[i].entityType in FormatEntities(es)
    ensures FormatEntities(es)[es[i].entityType] == es[i].value
  {
    if i < |es| - 1 {
      var init := es[..|es| - 1];
      FormatLastWins(init, i);
    }
  }

  /**
   * Accumulating two batches one after the other gives the record of their
   * concatenation: the later batch overrides the earlier one type by type.
   */
  lemma {:induction false} FormatAppend(a: seq<Entity>, b: seq<Entity>)
    ensures FormatEntities(a + b) == FormatEntities(a) + FormatEntities(b)
  {
    if b == [] {
      assert a + b == a;
    } else {
      var b', e := b[..|b| - 1], b[|b| - 1];
      FormatAppend(a, b');
      assert (a + b)[..|a + b| - 1] == a + b';
      assert (a + b)[|a + b| - 1] == e;
      var m, n := FormatEntities(a), FormatEntities(b');
      assert FormatEntities(a + b) == (m + n)[e.entityType := e.value];
      assert FormatEntities(b) == n[e.entityType := e.value];
      assert (m + n)[e.entityType := e.value] == m + n[e.entityType := e.value];
    }
  }

  /** `entity.startPosition > game.entityStartPosition`; a comparison with a missing position is false. */
  predicate After(e: Entity, lastPosition: Option<int>) {
    lastPosition.Some? && e.startPosition > lastPosition.value
  }

  /** The `filter` of `selectNewEntities`. */
  function Newer(es: seq<Entity>, lastPosition: Option<int>): (r: seq<Entity>)
    ensures |r| <= |es|
    ensures forall e :: e in r <==> e in es && After(e, lastPosition)
  {
    if es == [] then []
    else
      var init := Newer(es[..|es| - 1], lastPosition);
      var e := es[|es| - 1];
      assert es == es[..|es| - 1] + [e];
      if After(e, lastPosition) then init + [e] else init
  }

  /** The positions in `es` of the entities `Newer` keeps. */
  ghost function KeptIndices(es: seq<Entity>, lastPosition: Option<int>): seq<int> {
    if es == [] then []
    else
      var init := KeptIndices(es[..|es| - 1], lastPosition);
      if After(es[|es| - 1], lastPosition) then init + [|es| - 1] else init
  }

  /** The kept positions are valid, strictly increasing, and are exactly the positions of entities after `lastPosition`. */
  lemma {:induction false} KeptIndicesSpec(es: seq<Entity>, lastPosition: Option<int>)
    ensures var idx := KeptIndices(es, lastPosition);
      && (forall k :: 0 <= k < |idx| ==> 0 <= idx[k] < |es|)
      && (forall k, l :: 0 <= k < l < |idx| ==> idx[k] < idx[l])
      && (forall i :: 0 <= i < |es| ==> (i in idx <==> After(es[i], lastPosition)))
  {
    if es != [] {
      var init, last := es[..|es| - 1], |es| - 1;
      KeptIndicesSpec(init, lastPosition);
      var idx0, idx := KeptIndices(init, lastPosition), KeptIndices(es, lastPosition);
      assert idx == if After(es[last], lastPosition) then idx0 + [last] else idx0;
      forall i | 0 <= i < last
        ensures i in idx <==> After(es[i], lastPosition)
      {
        assert es[i] == init[i];
      }
    }
  }

  /**
   * `Newer` keeps exactly the entities after `lastPosition`, in their original
   * order: its result is `es` read at the kept positions, which
   * `KeptIndicesSpec` shows are increasing and exactly the positions after
   * `lastPosition`.
   */
  lemma {:induction false} NewerKeepsOrder(es: seq<Entity>, lastPosition: Option<int>)
    ensures var r, idx := Newer(es, lastPosition), KeptIndices(es, lastPosition);
      && |idx| == |r|
      && (forall k :: 0 <= k < |idx| ==> 0 <= idx[k] < |es| && r[k] == es[idx[k]])
  {
    KeptIndicesSpec(es, lastPosition);
    if es != [] {
      var init, last := es[..|es| - 1], |es| - 1;
      NewerKeepsOrder(init, lastPosition);
      KeptIndicesSpec(init, lastPosition);
      var r0, idx0 := Newer(init, lastPosition), KeptIndices(init, lastPosition);
      var r, idx := Newer(es, lastPosition), KeptIndices(es, lastPosition);
      if After(es[last], lastPosition) {
        assert r == r0 + [es[last]] && idx == idx0 + [last];
      } else {
        assert r == r0 && idx == idx0;
      }
      forall k | 0 <= k < |idx0|
        ensures r[k] == es[idx[k]]
      {
        assert idx[k] == idx0[k] && r[k] == r0[k] && es[idx0[k]] == init[idx0[k]];
      }
    }
  }

  /**
   * `selectNewEntities`: all entities of a segment from a new context; within
   * the context the game last acted on, only those after the last consumed
   * position.
   */
  function SelectNewEntities(segment: Segment, contextId: Option<string>, entityStartPosition: Option<int>): (r: seq<Entity>)
    ensures contextId != Some(segment.contextId) ==> r == segment.entities
    ensures contextId == Some(segment.contextId) ==>
              forall e :: e in r <==> e in segment.entities && After(e, entityStartPosition)
  {
    if contextId != Some(segment.contextId) then segment.entities
    else Newer(segment.entities, entityStartPosition)
  }

  /** Start positions never decrease along the sequence (how the recogniser delivers entities). */
  predicate Ascending(es: seq<Entity>) {
    forall i, j :: 0 <= i < j < |es| ==> es[i].startPosition <= es[j].startPosition
  }

  /** On ascending input, whatever `Newer` keeps ends with the segment's last entity. */
  lemma NewerEndsWithLast(es: seq<Entity>, lastPosition: Option<int>)
    requires Ascending(es)
    requires Newer(es, lastPosition) != []
    ensures es != [] && Newer(es, lastPosition)[|Newer(es, lastPosition)| - 1] == es[|es| - 1]
  {
    var r := Newer(es, lastPosition);
    assert r[0] in r;
    var i :| 0 <= i < |es| && es[i] == r[0];
    assert After(es[|es| - 1], lastPosition);
  }

  /** Nothing is newer than a position no entity exceeds. */
  lemma NothingNewerThanMaximum(es: seq<Entity>, p: int)
    requires forall e :: e in es ==> e.startPosition <= p
    ensures Newer(es, Some(p)) == []
  {
  }
}
