/** The upsert loop of a completion on any prior asset table. Its lookups see committed rows only,
    so it is right only as far as the list does not name a new type twice. */
module Upserts {
  import opened Options
  import opened Rows
  import opened Sessions
  import opened SessionInvariant

  datatype Unsaved = Unsaved(edits: seq<Asset>, adds: seq<Asset>)

  /** The changes pending in the session after the loop over `list`. */
  function Upserted(list: seq<Asset>, assets: map<AssetType, string>): Unsaved {
    if list == [] then Unsaved([], [])
    else
      var before, last := Upserted(list[..|list| - 1], assets), list[|list| - 1];
      if last.assetType in assets then before.(edits := before.edits + [last])
        else before.(adds := before.adds + [last])
  }

  /** The loop's turns are the session's upsert moves. */
  lemma UpsertTurn(cache: Cache, list: seq<Asset>, n: nat, assets: map<AssetType, string>)
    requires n < |list|
    ensures var before, after := Upserted(list[..n], assets), Upserted(list[..n + 1], assets);
      UpsertOne(cache, list, n, before.edits, before.adds, assets)
        == Completing(cache, list, n + 1, after.edits, after.adds)
  {
    assert list[..n + 1][..n] == list[..n];
  }

  lemma {:induction false} PendingTypes(list: seq<Asset>, assets: map<AssetType, string>, t: AssetType)
    ensures Lists(Upserted(list, assets).adds, t) <==> t !in assets && Lists(list, t)
  {
    if list == [] {
    } else {
      var front, last := list[..|list| - 1], list[|list| - 1];
      PendingTypes(front, assets, t);
      AppendLists(front, last, t);
      assert front + [last] == list;
      AppendLists(Upserted(front, assets).adds, last, t);
    }
  }

  lemma AppendLists(front: seq<Asset>, last: Asset, t: AssetType)
    ensures Lists(front + [last], t) <==> Lists(front, t) || t == last.assetType
  {
    var list := front + [last];
    if Lists(front, t) {
      var i :| 0 <= i < |front| && front[i].assetType == t;
      assert list[i].assetType == t;
    }
    if t == last.assetType {
      assert list[|front|].assetType == t;
    }
  }

  /** No type that is new to the table is listed twice. */
  predicate NewTypesOnce(list: seq<Asset>, assets: map<AssetType, string>) {
    forall i, k :: 0 <= i < k < |list| && list[i].assetType == list[k].assetType ==> list[i].assetType in assets
  }

  lemma {:induction false} AddsAreNew(list: seq<Asset>, assets: map<AssetType, string>)
    ensures forall i :: 0 <= i < |Upserted(list, assets).adds| ==> Upserted(list, assets).adds[i].assetType !in assets
  {
    if list == [] {
    } else {
      AddsAreNew(list[..|list| - 1], assets);
    }
  }

  /** The (video, asset type) constraint accepts the pending adds exactly when no new type is
      listed twice. */
  lemma {:induction false} ConstraintHoldsIff(list: seq<Asset>, assets: map<AssetType, string>)
    ensures DistinctTypes(Upserted(list, assets).adds) <==> NewTypesOnce(list, assets)
  {
    if list == [] {
    } else {
      var front, last := list[..|list| - 1], list[|list| - 1];
      var before := Upserted(front, assets).adds;
      ConstraintHoldsIff(front, assets);
      PendingTypes(front, assets, last.assetType);
      assert NewTypesOnce(list, assets) <==>
        NewTypesOnce(front, assets) && (last.assetType in assets || !Lists(front, last.assetType)) by {
        NewTypesAppend(front, last, assets);
        assert front + [last] == list;
      }
      if last.assetType !in assets {
        assert DistinctTypes(before + [last]) <==> DistinctTypes(before) && !Lists(before, last.assetType) by {
          DistinctAppend(before, last);
        }
      }
    }
  }

  lemma NewTypesAppend(front: seq<Asset>, last: Asset, assets: map<AssetType, string>)
    ensures NewTypesOnce(front + [last], assets) <==>
      NewTypesOnce(front, assets) && (last.assetType in assets || !Lists(front, last.assetType))
  {
    var list := front + [last];
    assert forall i :: 0 <= i < |front| ==> list[i] == front[i];
    if Lists(front, last.assetType) {
      var i :| 0 <= i < |front| && front[i].assetType == last.assetType;
      assert list[i].assetType == list[|front|].assetType;
    }
  }

  lemma DistinctAppend(front: seq<Asset>, last: Asset)
    ensures DistinctTypes(front + [last]) <==> DistinctTypes(front) && !Lists(front, last.assetType)
  {
    var list := front + [last];
    assert forall i :: 0 <= i < |front| ==> list[i] == front[i];
    if Lists(front, last.assetType) {
      var i :| 0 <= i < |front| && front[i].assetType == last.assetType;
      assert list[i].assetType == list[|front|].assetType;
    }
  }

  lemma {:induction false} PutCommutes(assets: map<AssetType, string>, list: seq<Asset>, t: AssetType, key: string)
    requires !Lists(list, t)
    ensures Put(assets[t := key], list) == Put(assets, list)[t := key]
  {
    if list == [] {
    } else {
      var front, last := list[..|list| - 1], list[|list| - 1];
      assert front + [last] == list;
      AppendLists(front, last, t);
      PutCommutes(assets, front, t, key);
    }
  }

  lemma PutAppend(assets: map<AssetType, string>, list: seq<Asset>, last: Asset)
    ensures Put(assets, list + [last]) == Put(assets, list)[last.assetType := last.objectKey]
  {
    assert (list + [last])[..|list|] == list;
  }

  /** Whatever the table held, the pending changes leave the old rows overridden by the list. */
  lemma {:induction false} UpsertsOverride(list: seq<Asset>, assets: map<AssetType, string>)
    ensures var p := Upserted(list, assets); Put(Put(assets, p.edits), p.adds) == Put(assets, list)
  {
    if list == [] {
    } else {
      var front, last := list[..|list| - 1], list[|list| - 1];
      UpsertsOverride(front, assets);
      var before := Upserted(front, assets);
      if last.assetType in assets {
        PutAppend(assets, before.edits, last);
        PendingTypes(front, assets, last.assetType);
        PutCommutes(Put(assets, before.edits), before.adds, last.assetType, last.objectKey);
      } else {
        PutAppend(Put(assets, before.edits), before.adds, last);
      }
    }
  }

  /** Completing again with the same list changes no row. */
  lemma UpsertsAreIdempotent(list: seq<Asset>, assets: map<AssetType, string>)
    ensures var once := Put(assets, list); var p := Upserted(list, once);
      p.adds == [] && Put(Put(once, p.edits), p.adds) == once
  {
    var once := Put(assets, list);
    UpsertsOverride(list, once);
    AllListed(list, assets);
    NoAdds(list, once);
    PutTwice(list, assets, once);
  }

  lemma {:induction false} AllListed(list: seq<Asset>, assets: map<AssetType, string>)
    ensures forall i :: 0 <= i < |list| ==> list[i].assetType in Put(assets, list)
  {
    if list == [] {
    } else {
      var front := list[..|list| - 1];
      AllListed(front, assets);
      assert forall i :: 0 <= i < |front| ==> list[i] == front[i];
    }
  }

  lemma {:induction false} NoAdds(list: seq<Asset>, assets: map<AssetType, string>)
    requires forall i :: 0 <= i < |list| ==> list[i].assetType in assets
    ensures Upserted(list, assets).adds == []
  {
    if list == [] {
    } else {
      NoAdds(list[..|list| - 1], assets);
    }
  }

  /** Rows a list writes depend only on the list; the others are the table's. */
  lemma {:induction false} PutRow(list: seq<Asset>, a: map<AssetType, string>, b: map<AssetType, string>, t: AssetType)
    requires Lists(list, t)
    ensures t in Put(a, list) && t in Put(b, list) && Put(a, list)[t] == Put(b, list)[t]
  {
    var front, last := list[..|list| - 1], list[|list| - 1];
    assert front + [last] == list;
    AppendLists(front, last, t);
    if t != last.assetType {
      PutRow(front, a, b, t);
    }
  }

  lemma PutTwice(list: seq<Asset>, assets: map<AssetType, string>, once: map<AssetType, string>)
    requires once == Put(assets, list)
    ensures Put(once, list) == once
  {
    forall t
      ensures t in Put(once, list) <==> t in once
      ensures t in once ==> Put(once, list)[t] == once[t]
    {
      if Lists(list, t) {
        PutRow(list, assets, once, t);
      } else {
        PutEntry(once, list, t, "");
      }
    }
  }

  /** The transcode activity's own list is never rejected for a repeated type. */
  lemma PlannedListIsAccepted(h: int, assets: map<AssetType, string>, list: seq<Asset>)
    requires |list| == |TypesOf(RenditionsForSourceHeight(h))|
    requires forall i :: 0 <= i < |list| ==> list[i].assetType == TypesOf(RenditionsForSourceHeight(h))[i]
    ensures DistinctTypes(Upserted(list, assets).adds)
  {
    PreviewTypes(h);
    ConstraintHoldsIff(list, assets);
  }

  /** What the constraints ask of a list: no type that is new to the table twice, no key another
      video holds on a row the list changes, and no key twice in the table it leads to. */
  predicate Acceptable(list: seq<Asset>, assets: map<AssetType, string>, taken: set<string>) {
    var after := Put(assets, list);
    && NewTypesOnce(list, assets)
    && (forall t :: t in after && (t !in assets || after[t] != assets[t]) ==> after[t] !in taken)
    && (forall s, t :: s in after && t in after && s != t ==> after[s] != after[t])
  }

  lemma FlushAllowedIff(list: seq<Asset>, assets: map<AssetType, string>, taken: set<string>)
    ensures var p := Upserted(list, assets);
      FlushAllowed(assets, p.edits, p.adds, taken) <==> Acceptable(list, assets, taken)
  {
    ConstraintHoldsIff(list, assets);
    UpsertsOverride(list, assets);
    AddsAreNew(list, assets);
  }

  // ---- A whole completion ----

  /** The store once a completion is committed: the cached rows' changes saved, the list written
      over the old asset rows, and the video `completed` exactly if that makes all jobs so. */
  function AfterCompletion(j: JobType, cache: Cache, list: seq<Asset>, before: Store): Store {
    var saved := SaveCache(j, cache, before);
    saved.(
      video :=
        if saved.AllDone()
        then UpdateVideo(before.video, cache.videoBase, cache.video.(status := VideoStatus.Completed))
        else saved.video,
      assets := Put(before.assets, list))
  }

  /** An attempt after a list of moves; None when one of them was not its next. */
  function AfterMoves(plan: seq<Asset>, j: JobType, h: int, moves: seq<Move>, pc: Pc, store: Store): Option<Progress> {
    if moves == [] then Some(Progress(pc, store))
    else
      match AfterMoves(plan, j, h, moves[..|moves| - 1], pc, store)
      case None => None
      case Some(p) => Advance(plan, j, h, moves[|moves| - 1], p.pc, p.store)
  }

  function UpsertMoves(n: nat): seq<Move> {
    if n == 0 then [] else UpsertMoves(n - 1) + [Upsert]
  }

  lemma OneMoreMove(
      plan: seq<Asset>, j: JobType, h: int, moves: seq<Move>, move: Move, pc: Pc, store: Store, p: Progress)
    requires AfterMoves(plan, j, h, moves, pc, store) == Some(p)
    ensures AfterMoves(plan, j, h, moves + [move], pc, store) == Advance(plan, j, h, move, p.pc, p.store)
  {
    assert (moves + [move])[..|moves|] == moves;
  }

  /** The attempt, its upserts pending, after the first `n` of them. */
  function Upserting(cache: Cache, list: seq<Asset>, n: nat, assets: map<AssetType, string>): Pc
    requires n <= |list|
  {
    Completing(cache, list, n, Upserted(list[..n], assets).edits, Upserted(list[..n], assets).adds)
  }

  lemma {:induction false} AfterUpserts(
      plan: seq<Asset>, j: JobType, h: int, cache: Cache, list: seq<Asset>, n: nat, store: Store)
    requires n <= |list|
    ensures AfterMoves(plan, j, h, UpsertMoves(n), Completing(cache, list, 0, [], []), store)
         == Some(Progress(Upserting(cache, list, n, store.assets), store))
  {
    hide Advance, Upserting, AfterMoves;
    if n == 0 {
      NothingUpserted(plan, j, h, cache, list, store);
    } else {
      AfterUpserts(plan, j, h, cache, list, n - 1, store);
      OneMoreMove(plan, j, h, UpsertMoves(n - 1), Upsert, Completing(cache, list, 0, [], []), store,
        Progress(Upserting(cache, list, n - 1, store.assets), store));
      UpsertMove(plan, j, h, cache, list, n - 1, store);
    }
  }

  lemma NothingUpserted(plan: seq<Asset>, j: JobType, h: int, cache: Cache, list: seq<Asset>, store: Store)
    ensures AfterMoves(plan, j, h, [], Completing(cache, list, 0, [], []), store)
         == Some(Progress(Upserting(cache, list, 0, store.assets), store))
  {
  }

  lemma UpsertMove(plan: seq<Asset>, j: JobType, h: int, cache: Cache, list: seq<Asset>, n: nat, store: Store)
    requires n < |list|
    ensures Advance(plan, j, h, Upsert, Upserting(cache, list, n, store.assets), store)
         == Some(Progress(Upserting(cache, list, n + 1, store.assets), store))
  {
    hide Upserted, UpsertOne;
    UpsertTurn(cache, list, n, store.assets);
  }

  /** The session's upserts, flush and count, and commit, one move after the other with nobody else
      committing in between: the flush raises exactly if the constraints do not accept the list, and
      otherwise the commit leaves the store as completed. */
  lemma CompletionOfMoves(
      plan: seq<Asset>, j: JobType, h: int, cache: Cache, list: seq<Asset>, taken: set<string>, before: Store)
    ensures var start, moves := Completing(cache, list, 0, [], []), UpsertMoves(|list|) + [Count(taken)];
      var flushed := AfterMoves(plan, j, h, moves, start, before);
      && flushed.Some? && flushed.value.store == before
      && flushed.value.pc.Raised? == !Acceptable(list, before.assets, taken)
      && (Acceptable(list, before.assets, taken) ==>
            var end := AfterMoves(plan, j, h, moves + [Commit], start, before);
            end.Some? && end.value.pc.Returned? && end.value.store == AfterCompletion(j, cache, list, before))
  {
    hide Advance, AfterMoves, AfterCompletion, FlushAndCount, Acceptable, Upserted;
    var start, moves := Completing(cache, list, 0, [], []), UpsertMoves(|list|);
    var p := Upserted(list, before.assets);
    assert list[..|list|] == list;
    AfterUpserts(plan, j, h, cache, list, |list|, before);
    OneMoreMove(plan, j, h, moves, Count(taken), start, before,
      Progress(Completing(cache, list, |list|, p.edits, p.adds), before));
    CountMove(plan, j, h, cache, list, taken, before);
    if Acceptable(list, before.assets, taken) {
      var counted := FlushAndCount(j, cache, p.edits, p.adds, taken, before);
      OneMoreMove(plan, j, h, moves + [Count(taken)], Commit, start, before, Progress(counted, before));
      CommitMove(plan, j, h, cache, list, taken, before);
    }
  }

  lemma CountMove(
      plan: seq<Asset>, j: JobType, h: int, cache: Cache, list: seq<Asset>, taken: set<string>, before: Store)
    ensures var p := Upserted(list, before.assets);
      var counted := FlushAndCount(j, cache, p.edits, p.adds, taken, before);
      && Advance(plan, j, h, Count(taken), Completing(cache, list, |list|, p.edits, p.adds), before)
         == Some(Progress(counted, before))
      && counted.Raised? == !Acceptable(list, before.assets, taken)
  {
    hide Acceptable, Upserted, FlushAllowed;
    FlushAllowedIff(list, before.assets, taken);
  }

  lemma CommitMove(
      plan: seq<Asset>, j: JobType, h: int, cache: Cache, list: seq<Asset>, taken: set<string>, before: Store)
    requires Acceptable(list, before.assets, taken)
    ensures var p := Upserted(list, before.assets);
      var end := Advance(plan, j, h, Commit, FlushAndCount(j, cache, p.edits, p.adds, taken, before), before);
      end.Some? && end.value.pc.Returned? && end.value.store == AfterCompletion(j, cache, list, before)
  {
    hide Acceptable, Upserted, FlushAllowed, Put;
    FlushAllowedIff(list, before.assets, taken);
    UpsertsOverride(list, before.assets);
  }
}
