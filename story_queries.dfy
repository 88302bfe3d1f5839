/** The sidebar panel listing a story's queries: creating a query, importing
    one from another story, the import candidates, the item icon and the
    drag payload. */
module StoryQueries {
  import opened Types
  import BlockTransactions

  /** The ids of `blocks`, in order. */
  function BlockIds(blocks: seq<Block>): (r: seq<string>)
    ensures |r| == |blocks| && forall i :: 0 <= i < |blocks| ==> r[i] == blocks[i].id
  {
    seq(|blocks|, i requires 0 <= i < |blocks| => blocks[i].id)
  }

  /** The dictionary the fragment's `reduce` builds: each block stored under
      its id, a later block overwriting an earlier one with the same id. */
  function IndexById(blocks: seq<Block>): map<string, Block> {
    if |blocks| == 0 then map[]
    else
      var last := blocks[|blocks| - 1];
      IndexById(blocks[..|blocks| - 1])[last.id := last]
  }

  /** The dictionary's keys are exactly the fragment's children. */
  lemma {:induction false} IndexByIdKeys(blocks: seq<Block>)
    ensures forall k :: k in IndexById(blocks) <==> k in BlockIds(blocks)
  {
    if |blocks| > 0 {
      var init := blocks[..|blocks| - 1];
      IndexByIdKeys(init);
      assert forall k :: k in BlockIds(init) ==> k in BlockIds(blocks) by {
        forall k | k in BlockIds(init) ensures k in BlockIds(blocks) {
          var i :| 0 <= i < |init| && BlockIds(init)[i] == k;
          assert BlockIds(blocks)[i] == k;
        }
      }
      assert forall k :: k in BlockIds(blocks) ==> k in BlockIds(init) || k == blocks[|blocks| - 1].id by {
        forall k | k in BlockIds(blocks) ensures k in BlockIds(init) || k == blocks[|blocks| - 1].id {
          var i :| 0 <= i < |blocks| && BlockIds(blocks)[i] == k;
          if i < |init| { assert BlockIds(init)[i] == k; }
        }
      }
    }
  }

  /** Each id maps to the last block carrying it. */
  lemma {:induction false} IndexByIdLastWins(blocks: seq<Block>, i: nat)
    requires i < |blocks|
    requires forall j :: i < j < |blocks| ==> blocks[j].id != blocks[i].id
    ensures blocks[i].id in IndexById(blocks) && IndexById(blocks)[blocks[i].id] == blocks[i]
  {
    var n := |blocks|;
    if i < n - 1 {
      var init := blocks[..n - 1];
      IndexByIdLastWins(init, i);
    }
  }

  /** With distinct ids every block is found under its own id. */
  lemma IndexByIdDistinct(blocks: seq<Block>)
    requires forall i, j :: 0 <= i < j < |blocks| ==> blocks[i].id != blocks[j].id
    ensures forall i :: 0 <= i < |blocks| ==> blocks[i].id in IndexById(blocks) && IndexById(blocks)[blocks[i].id] == blocks[i]
  {
    forall i | 0 <= i < |blocks|
      ensures blocks[i].id in IndexById(blocks) && IndexById(blocks)[blocks[i].id] == blocks[i]
    {
      IndexByIdLastWins(blocks, i);
    }
  }

  /** The `{children, data}` fragment for new blocks: `children` by a map over
      the blocks, `data` by writing each block into a dictionary in turn. */
  method BuildFragment(blocks: seq<Block>) returns (f: Fragment)
    ensures f.children == BlockIds(blocks)
    ensures f.data == IndexById(blocks)
  {
    var data: map<string, Block> := map[];
    var i := 0;
    while i < |blocks|
      invariant 0 <= i <= |blocks|
      invariant data == IndexById(blocks[..i])
    {
      var c := blocks[i];
      data := data[c.id := c];
      assert blocks[..i + 1][..i] == blocks[..i];
      i := i + 1;
    }
    assert blocks[..i] == blocks;
    f := Fragment(BlockIds(blocks), data);
  }

  /** `createNewQuery`: nothing without a story; otherwise one empty SQL block,
      owned by and parented to the story, inserted as a child into the
      story's `resources` list. `newBlockId` is the id the block factory
      generates. */
  method CreateNewQuery(storyId: string, newBlockId: string) returns (r: Option<BlockTransactions.InsertCall>)
    ensures r.None? <==> storyId == ""
    ensures r.Some? ==>
      var call := r.value;
      var b := Block(newBlockId, SQL, storyId, None, Some(storyId), SqlContent(""), None, None, None);
      && call.storyId == storyId
      && call.blocksFragment.children == [newBlockId]
      && call.blocksFragment.data == map[newBlockId := b]
      && call.targetBlockId == storyId
      && call.direction == Child
      && call.path == Some("resources")
  {
    if storyId == "" {
      return None;
    }
    var newBlock := Block(newBlockId, SQL, storyId, None, Some(storyId), SqlContent(""), None, None, None);
    var fragment := BuildFragment([newBlock]);
    assert [newBlock][..0] == [];
    r := Some(BlockTransactions.InsertCall(storyId, fragment, storyId, Child, Some("resources")));
  }

  /** `importQueryToStory`: insert the query into the story's `resources` list with `listBefore`. */
  function ImportQueryToStory(storyId: string, blockId: string): (r: Commit)
    ensures r.storyId == storyId && |r.operations| == 1
    ensures r.operations[0] == Operation(ListBeforeCmd, BlockTable, storyId, ["resources"], IdRef(blockId))
  {
    Commit(storyId, [Operation(ListBeforeCmd, BlockTable, storyId, ["resources"], IdRef(blockId))])
  }

  /** The search results offered for import: those not already among the
      story's resources, in search order. Without a resource list nothing is
      hidden. */
  function ImportCandidates(searchResults: seq<string>, storyResources: Option<seq<string>>): (r: seq<string>)
    ensures |r| <= |searchResults|
    ensures forall b :: b in r <==> b in searchResults && (storyResources.None? || b !in storyResources.value)
  {
    if searchResults == [] then []
    else
      var b := searchResults[0];
      var rest := ImportCandidates(searchResults[1..], storyResources);
      if storyResources.Some? && b in storyResources.value then rest else [b] + rest
  }

  /** Importing an offered query names a block not yet in the story's resources. */
  lemma ImportOfOfferedIsNew(storyId: string, searchResults: seq<string>, storyResources: seq<string>, i: nat)
    requires i < |ImportCandidates(searchResults, Some(storyResources))|
    ensures var op := ImportQueryToStory(storyId, ImportCandidates(searchResults, Some(storyResources))[i]).operations[0];
      op.args.IdRef? && op.args.id in searchResults && op.args.id !in storyResources
  {
    var offered := ImportCandidates(searchResults, Some(storyResources));
    assert offered[i] in offered;
  }

  datatype Icon = BackLinkIcon | SqlIcon | DataAssetIcon | DbtIcon

  /** The icon of a resource item: a block of another story is a back link;
      otherwise query builders and dbt blocks have their own icons and
      everything else shows the SQL icon. */
  function ResourceIcon(block: Block, storyId: string): (r: Icon)
    ensures r == BackLinkIcon <==> block.storyId != Some(storyId)
    ensures r == DataAssetIcon <==> block.storyId == Some(storyId) && block.blockType == QueryBuilder
    ensures r == DbtIcon <==> block.storyId == Some(storyId) && block.blockType == DBT
    ensures r == SqlIcon <==> block.storyId == Some(storyId) && block.blockType != QueryBuilder && block.blockType != DBT
  {
    if block.storyId != Some(storyId) then BackLinkIcon
    else if block.blockType == SQL || block.blockType == SnapshotBlock then SqlIcon
    else if block.blockType == QueryBuilder then DataAssetIcon
    else if block.blockType == DBT then DbtIcon
    else SqlIcon
  }

  /** The payload of dragging a resource item into the story. */
  datatype DragItem = DragItem(originalBlockId: string, blockData: Block)

  /** A new Visualization block of the story, fed by the dragged data asset or
      query. `newBlockId` is the id the block factory generates. */
  function DragPayload(storyId: string, blockId: string, isDataAsset: bool, newBlockId: string): (r: DragItem)
    ensures r.originalBlockId == blockId
    ensures r.blockData.id == newBlockId && r.blockData.blockType == Visualization
    ensures r.blockData.storyId == Some(storyId) && r.blockData.parentId == storyId
    ensures r.blockData.content.FromDataAsset? <==> isDataAsset
    ensures r.blockData.content.FromDataAsset? ==> r.blockData.content.fromDataAssetId == blockId
    ensures r.blockData.content.FromQuery? <==> !isDataAsset
    ensures r.blockData.content.FromQuery? ==> r.blockData.content.queryId == blockId
  {
    var content := if isDataAsset then FromDataAsset(blockId) else FromQuery(blockId);
    DragItem(blockId, Block(newBlockId, Visualization, storyId, None, Some(storyId), content, None, None, None))
  }
}
