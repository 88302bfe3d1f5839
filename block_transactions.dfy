/** The block-transaction facade: each action turns an edit intent into the
    ordered operation list (or the argument record of an opaque builder) that
    is handed to the commit dispatcher. */
module BlockTransactions {
  import opened Types

  /** Arguments of the opaque move builder. */
  datatype MovePlan = MovePlan(
    storyId: string,
    sourceBlockFragment: Fragment,
    targetBlock: Block,
    direction: Direction,
    deleteSourceBlock: bool)

  /** Arguments of the opaque insert builder, with the list path resolved. */
  datatype InsertPlan = InsertPlan(
    storyId: string,
    blocksFragment: Fragment,
    targetBlock: Block,
    direction: Direction,
    path: string)

  /** A call of `insertBlocks` as a caller writes it; `path` may be omitted. */
  datatype InsertCall = InsertCall(
    storyId: string,
    blocksFragment: Fragment,
    targetBlockId: string,
    direction: Direction,
    path: Option<string>)

  /** Arguments of the opaque thought builder. */
  datatype ThoughtPlan = ThoughtPlan(id: string, workspaceId: string, userId: string)

  /** A transaction persisted directly, outside the per-story commit pipeline. */
  datatype SavedTransaction = SavedTransaction(workspaceId: string, operations: seq<Operation>)

  datatype NewStoryProps = NewStoryProps(id: string, title: Option<string>)

  /** The list a remove or insert works on when the caller names none. */
  const DefaultListPath: string := "children"

  function ListPath(path: Option<string>): (p: string)
    ensures path.None? ==> p == DefaultListPath
    ensures path.Some? ==> p == path.value
  {
    path.GetOr(DefaultListPath)
  }

  /** Marks a block logically deleted. */
  function Tombstone(id: string): Operation {
    Operation(UpdateCmd, BlockTable, id, ["alive"], Flag(false))
  }

  /** Unlinks `target` from the `path` list of its parent. */
  function Unlink(target: Block, path: string): Operation {
    Operation(ListRemoveCmd, BlockTable, target.parentId, [path], IdRef(target.id))
  }

  predicate Owned(storyId: string, target: Block) {
    target.storyId == Some(storyId)
  }

  /** The operations emitted for one target of `removeBlocks`. */
  function TargetOps(storyId: string, targetId: string, target: Block, path: string): seq<Operation> {
    [Unlink(target, path)] + if Owned(storyId, target) then [Tombstone(targetId)] else []
  }

  predicate AllInSnapshot(ids: seq<string>, snapshot: map<string, Block>) {
    forall i :: 0 <= i < |ids| ==> ids[i] in snapshot
  }

  /** The operation list `removeBlocks` builds for `ids` against `snapshot`. */
  function RemoveOps(storyId: string, ids: seq<string>, path: string, snapshot: map<string, Block>): seq<Operation>
    requires AllInSnapshot(ids, snapshot)
  {
    if |ids| == 0 then []
    else
      var last := ids[|ids| - 1];
      RemoveOps(storyId, ids[..|ids| - 1], path, snapshot) + TargetOps(storyId, last, snapshot[last], path)
  }

  /** How many of `ids` belong to the story being edited. */
  function OwnedCount(storyId: string, ids: seq<string>, snapshot: map<string, Block>): nat
    requires AllInSnapshot(ids, snapshot)
  {
    if |ids| == 0 then 0
    else
      var last := ids[|ids| - 1];
      OwnedCount(storyId, ids[..|ids| - 1], snapshot) + if Owned(storyId, snapshot[last]) then 1 else 0
  }

  /** Index in `RemoveOps` of the unlink operation of target `k`. */
  function UnlinkIndex(storyId: string, ids: seq<string>, snapshot: map<string, Block>, k: nat): nat
    requires k <= |ids| && AllInSnapshot(ids, snapshot)
  {
    k + OwnedCount(storyId, ids[..k], snapshot)
  }

  /** `removeBlocks`: for each target, in order, unlink it from its parent's
      list and, when it belongs to the edited story, tombstone it. A target
      missing from the snapshot aborts the whole transaction. */
  method RemoveBlocks(storyId: string, targetIds: seq<string>, path: Option<string>, snapshot: map<string, Block>)
    returns (r: Result<Commit, string>)
    ensures r.Failure? <==> !AllInSnapshot(targetIds, snapshot)
    ensures r.Failure? ==>
      exists k :: 0 <= k < |targetIds| && targetIds[k] == r.error && r.error !in snapshot
                  && AllInSnapshot(targetIds[..k], snapshot)
    ensures r.Success? ==>
      AllInSnapshot(targetIds, snapshot)
      && r.value == Commit(storyId, RemoveOps(storyId, targetIds, ListPath(path), snapshot))
  {
    var listPath := ListPath(path);
    var operations: seq<Operation> := [];
    var i := 0;
    while i < |targetIds|
      invariant 0 <= i <= |targetIds|
      invariant AllInSnapshot(targetIds[..i], snapshot)
      invariant operations == RemoveOps(storyId, targetIds[..i], listPath, snapshot)
    {
      var targetId := targetIds[i];
      if targetId !in snapshot {
        return Failure(targetId);
      }
      var target := snapshot[targetId];
      operations := operations + [Unlink(target, listPath)];
      if Some(storyId) == target.storyId {
        operations := operations + [Tombstone(targetId)];
      }
      assert targetIds[..i + 1][..i] == targetIds[..i];
      i := i + 1;
    }
    assert targetIds[..i] == targetIds;
    return Success(Commit(storyId, operations));
  }

  lemma {:induction false} RemoveOpsLength(storyId: string, ids: seq<string>, path: string, snapshot: map<string, Block>)
    requires AllInSnapshot(ids, snapshot)
    ensures |RemoveOps(storyId, ids, path, snapshot)| == |ids| + OwnedCount(storyId, ids, snapshot)
  {
    if |ids| > 0 {
      RemoveOpsLength(storyId, ids[..|ids| - 1], path, snapshot);
    }
  }

  /** The unlink index moves past a target's unlink and, when it is owned, its tombstone. */
  lemma UnlinkIndexNext(storyId: string, ids: seq<string>, snapshot: map<string, Block>, k: nat)
    requires AllInSnapshot(ids, snapshot) && k < |ids|
    ensures UnlinkIndex(storyId, ids, snapshot, k + 1)
         == UnlinkIndex(storyId, ids, snapshot, k) + 1 + if Owned(storyId, snapshot[ids[k]]) then 1 else 0
  {
    assert ids[..k + 1][..k] == ids[..k];
  }

  /** The operations emitted for target `k` sit at its unlink index: first the
      unlink from its parent's list, then (only for owned targets) its tombstone;
      after an unowned target comes the next target's unlink, or the end. */
  lemma {:induction false} RemoveOpsAt(storyId: string, ids: seq<string>, path: string, snapshot: map<string, Block>, k: nat)
    requires AllInSnapshot(ids, snapshot) && k < |ids|
    ensures UnlinkIndex(storyId, ids, snapshot, k) < |RemoveOps(storyId, ids, path, snapshot)|
    ensures RemoveOps(storyId, ids, path, snapshot)[UnlinkIndex(storyId, ids, snapshot, k)] == Unlink(snapshot[ids[k]], path)
    ensures Owned(storyId, snapshot[ids[k]]) ==>
      UnlinkIndex(storyId, ids, snapshot, k) + 1 < |RemoveOps(storyId, ids, path, snapshot)|
      && RemoveOps(storyId, ids, path, snapshot)[UnlinkIndex(storyId, ids, snapshot, k) + 1] == Tombstone(ids[k])
    ensures !Owned(storyId, snapshot[ids[k]]) && k + 1 == |ids| ==>
      UnlinkIndex(storyId, ids, snapshot, k) + 1 == |RemoveOps(storyId, ids, path, snapshot)|
    ensures !Owned(storyId, snapshot[ids[k]]) && k + 1 < |ids| ==>
      UnlinkIndex(storyId, ids, snapshot, k) + 1 < |RemoveOps(storyId, ids, path, snapshot)|
      && RemoveOps(storyId, ids, path, snapshot)[UnlinkIndex(storyId, ids, snapshot, k) + 1]
         == Unlink(snapshot[ids[k + 1]], path)
    decreases |ids|, |ids| - k
  {
    var n := |ids|;
    var init := ids[..n - 1];
    assert AllInSnapshot(init, snapshot);
    RemoveOpsLength(storyId, init, path, snapshot);
    var before := RemoveOps(storyId, init, path, snapshot);
    var tail := TargetOps(storyId, ids[n - 1], snapshot[ids[n - 1]], path);
    assert RemoveOps(storyId, ids, path, snapshot) == before + tail;
    if k == n - 1 {
      assert ids[..k] == init;
    } else {
      assert init[..k] == ids[..k];
      RemoveOpsAt(storyId, init, path, snapshot, k);
      assert init[k] == ids[k];
    }
    if !Owned(storyId, snapshot[ids[k]]) {
      UnlinkIndexNext(storyId, ids, snapshot, k);
      if k + 1 < |ids| {
        RemoveOpsAt(storyId, ids, path, snapshot, k + 1);
      } else {
        RemoveOpsLength(storyId, ids, path, snapshot);
        assert ids[..k + 1] == ids;
      }
    }
  }

  /** Every emitted operation is the unlink of some target or the tombstone of
      an owned target. */
  lemma {:induction false} RemoveOpsOrigin(storyId: string, ids: seq<string>, path: string, snapshot: map<string, Block>, j: nat)
    requires AllInSnapshot(ids, snapshot) && j < |RemoveOps(storyId, ids, path, snapshot)|
    ensures exists k :: 0 <= k < |ids| && (
              || RemoveOps(storyId, ids, path, snapshot)[j] == Unlink(snapshot[ids[k]], path)
              || (Owned(storyId, snapshot[ids[k]]) && RemoveOps(storyId, ids, path, snapshot)[j] == Tombstone(ids[k])))
  {
    var n := |ids|;
    var init := ids[..n - 1];
    assert AllInSnapshot(init, snapshot);
    var before := RemoveOps(storyId, init, path, snapshot);
    if j < |before| {
      RemoveOpsOrigin(storyId, init, path, snapshot, j);
      var k :| 0 <= k < |init| &&
        (before[j] == Unlink(snapshot[init[k]], path)
         || (Owned(storyId, snapshot[init[k]]) && before[j] == Tombstone(init[k])));
      assert init[k] == ids[k];
    } else {
      assert ids[n - 1] == ids[n - 1];
    }
  }

  /** `removeBlocks` tombstones a block exactly when one of the targets with
      that id belongs to the edited story. */
  lemma TombstoneIffOwned(storyId: string, ids: seq<string>, path: string, snapshot: map<string, Block>, x: string)
    requires AllInSnapshot(ids, snapshot)
    ensures Tombstone(x) in RemoveOps(storyId, ids, path, snapshot)
      <==> exists k :: 0 <= k < |ids| && ids[k] == x && Owned(storyId, snapshot[x])
  {
    var ops := RemoveOps(storyId, ids, path, snapshot);
    if Tombstone(x) in ops {
      var j :| 0 <= j < |ops| && ops[j] == Tombstone(x);
      RemoveOpsOrigin(storyId, ids, path, snapshot, j);
    }
    if exists k :: 0 <= k < |ids| && ids[k] == x && Owned(storyId, snapshot[x]) {
      var k :| 0 <= k < |ids| && ids[k] == x && Owned(storyId, snapshot[x]);
      RemoveOpsAt(storyId, ids, path, snapshot, k);
    }
  }

  /** `moveBlocks` always asks the move builder to detach the source blocks. */
  function MoveBlocks(storyId: string, blocksFragment: Fragment, targetBlock: Block, direction: Direction): (r: MovePlan)
    ensures r.deleteSourceBlock
    ensures r.storyId == storyId && r.sourceBlockFragment == blocksFragment
    ensures r.targetBlock == targetBlock && r.direction == direction
  {
    MovePlan(storyId, blocksFragment, targetBlock, direction, true)
  }

  /** `insertBlocks`: the target is looked up by id, and the list path defaults
      to `children`. */
  function InsertBlocks(call: InsertCall, targetBlock: Block): (r: InsertPlan)
    requires targetBlock.id == call.targetBlockId
    ensures r.targetBlock == targetBlock && r.targetBlock.id == call.targetBlockId
    ensures r.path == if call.path.Some? then call.path.value else "children"
    ensures r.storyId == call.storyId && r.blocksFragment == call.blocksFragment && r.direction == call.direction
  {
    InsertPlan(call.storyId, call.blocksFragment, targetBlock, call.direction, ListPath(call.path))
  }

  /** `createNewThought` keeps any given id, even an empty one (`??`). */
  function CreateNewThought(id: Option<string>, generatedId: string, workspaceId: string, userId: string): (r: ThoughtPlan)
    ensures r.id == if id.Some? then id.value else generatedId
    ensures r.workspaceId == workspaceId && r.userId == userId
  {
    ThoughtPlan(id.GetOr(generatedId), workspaceId, userId)
  }

  /** The id `createNewStory` uses: a given non-empty id, else a generated one. */
  function NewStoryId(props: Option<NewStoryProps>, generatedId: string): string {
    if props.Some? && props.value.id != "" then props.value.id else generatedId
  }

  /** `createNewStory`: one `set` operation writing a fresh Story block. */
  function CreateNewStory(props: Option<NewStoryProps>, generatedId: string, workspaceId: string): (r: Commit)
    ensures |r.operations| == 1
    ensures r.storyId == NewStoryId(props, generatedId)
    ensures r.operations[0].cmd == SetCmd && r.operations[0].table == BlockTable
    ensures r.operations[0].id == r.storyId && r.operations[0].path == []
    ensures r.operations[0].args.NewBlock?
    ensures var b := r.operations[0].args.block;
      && b.id == r.storyId && b.storyId == Some(r.storyId)
      && b.blockType == Story
      && b.parentId == workspaceId && b.parentTable == Some(WorkspaceParent)
      && b.children == Some([]) && b.format == Some(map[])
      && b.permissions == Some([Permission(WorkspaceEntity, None, Manager)])
      && b.content == TitleContent(
           if props.Some? && props.value.title.Some? && props.value.title.value != ""
           then [[props.value.title.value]] else [])
    ensures props.Some? && props.value.id != "" ==> r.storyId == props.value.id
    ensures (props.None? || props.value.id == "") ==> r.storyId == generatedId
  {
    var id := NewStoryId(props, generatedId);
    var title: Option<string> :=
      if props.Some? && props.value.title.Some? && props.value.title.value != "" then props.value.title else None;
    var story := Block(
      id, Story, workspaceId, Some(WorkspaceParent), Some(id),
      TitleContent(if title.Some? then [[title.value]] else []),
      Some([]), Some(map[]), Some([Permission(WorkspaceEntity, None, Manager)]));
    Commit(id, [Operation(SetCmd, BlockTable, id, [], NewBlock(story))])
  }

  /** `deleteStory`: the story is tombstoned exactly as `removeBlocks`
      tombstones an owned block. */
  function DeleteStory(storyId: string): (r: Commit)
    ensures r.storyId == storyId && r.operations == [Tombstone(storyId)]
    ensures r.operations[0].cmd == UpdateCmd && r.operations[0].path == ["alive"] && r.operations[0].args == Flag(false)
  {
    Commit(storyId, [Operation(UpdateCmd, BlockTable, storyId, ["alive"], Flag(false))])
  }

  /** `updateBlockPermissions`: one `setPermissions` operation carrying the whole list. */
  function UpdateBlockPermissions(storyId: string, permissions: seq<Permission>): (r: Commit)
    ensures r.storyId == storyId && |r.operations| == 1
    ensures r.operations[0].cmd == SetPermissionsCmd && r.operations[0].table == BlockTable
    ensures r.operations[0].id == storyId && r.operations[0].path == ["permissions"]
    ensures r.operations[0].args == PermissionList(permissions)
  {
    Commit(storyId, [Operation(SetPermissionsCmd, BlockTable, storyId, ["permissions"], PermissionList(permissions))])
  }

  /** `updateBlockProps`: one `set` operation at the caller's path with the caller's value. */
  function UpdateBlockProps(storyId: string, blockId: string, path: seq<string>, args: Value): (r: Commit)
    ensures r.storyId == storyId && |r.operations| == 1
    ensures r.operations[0].cmd == SetCmd && r.operations[0].table == BlockTable
    ensures r.operations[0].id == blockId && r.operations[0].path == path && r.operations[0].args == Json(args)
  {
    Commit(storyId, [Operation(SetCmd, BlockTable, blockId, path, Json(args))])
  }

  /** `pinStory`: insert the story into the workspace view's pinned list with `listBefore`. */
  function PinStory(workspaceId: string, workspaceViewId: string, storyId: string): (r: SavedTransaction)
    ensures r.workspaceId == workspaceId && |r.operations| == 1
    ensures r.operations[0] == Operation(ListBeforeCmd, WorkspaceViewTable, workspaceViewId, ["pinnedList"], IdRef(storyId))
  {
    SavedTransaction(workspaceId, [Operation(ListBeforeCmd, WorkspaceViewTable, workspaceViewId, ["pinnedList"], IdRef(storyId))])
  }

  /** `unpinStory`: the same operation as `pinStory` with the list command reversed. */
  function UnpinStory(workspaceId: string, workspaceViewId: string, storyId: string): (r: SavedTransaction)
    ensures r.workspaceId == workspaceId && |r.operations| == 1
    ensures r.operations[0] == PinStory(workspaceId, workspaceViewId, storyId).operations[0].(cmd := ListRemoveCmd)
  {
    SavedTransaction(workspaceId, [Operation(ListRemoveCmd, WorkspaceViewTable, workspaceViewId, ["pinnedList"], IdRef(storyId))])
  }
}
