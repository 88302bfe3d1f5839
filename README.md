# Tellery editor: block-transaction intents as operation lists

This project models the sequential, side-effect-free logic in three files of
Tellery's web editor. Each of these pieces turns a user's edit intent into
data for the commit pipeline:

- the block-transaction facade (`useBlockTranscation.ts`). `removeBlocks`
  walks the target ids against a block snapshot. It unlinks each target from
  its parent's list and tombstones (`alive = false`) only the targets owned by
  the edited story. The other actions (create, delete, set permissions, set
  props, pin, unpin, move, insert) each build a fixed operation list, or the
  argument record of a builder whose body is outside this model;
- the story configuration popover (`StoryConfigPopOver.tsx`). A story's
  permission list is treated as a set keyed by `(type, id)`. It is edited by
  `upsertPermission` and `removePermission`, and the workspace sharing switch
  is built from them. The `readOnly` and `private` flags are derived from the
  list, and a format update overwrites one key of the story's `format` map;
- the sidebar query panel (`SideBarCurrentStoryQueries.tsx`). It covers the
  fragment built for a new SQL query, the operation that imports a query into
  the story's `resources`, the search results offered for import, the item
  icon and the drag payload.

The commit dispatcher (`commit`, `saveTranscations`) is a sink. Each action
returns the value it would hand over: a `Commit` (story id plus operations),
a `SavedTransaction` (workspace id plus operations), or a plan record for an
opaque builder. A transaction that the source computes from the snapshot at
commit time takes the snapshot as a parameter (`map<string, Block>`).

Files:
- `types.dfy` (module `Types`): the shared datatypes: `Option`, `Result`,
  JSON-like `Value`, `Permission`, `Block`, `Fragment`, `Operation`, `Commit`.
- `block_transactions.dfy` (module `BlockTransactions`): the facade's
  operation builders. `RemoveBlocks` is a method with a loop, proved equal to
  the specification function `RemoveOps`.
- `story_config.dfy` (module `StoryConfig`): permission utilities, the
  sharing switch, status flags and the format update.
- `story_queries.dfy` (module `StoryQueries`): the sidebar helpers.
  `BuildFragment` is a method with a loop, proved equal to `IndexById`.

Modelling choices where the code is subtle:
- `createNewStory` picks `props.id` only when it is truthy, so an empty id
  gets a generated one. The same holds for the title: an empty title gives
  `title: []`. `createNewThought` uses `??`, so an empty id is kept. Both are
  modelled as written (`NewStoryId`, `CreateNewThought`).
- Clearing the workspace role removes only the id-less workspace entry
  (`removePermission` with `{type: 'workspace'}`). `privateStatus`, however,
  looks at every workspace entry. `SetWorkspacePermissionStatus` states the
  consequence: after clearing, the story is private exactly when it had no
  workspace entry carrying an id.
- `insertBlocks` declares its `path` as the literal `'children'`, but
  `createNewQuery` passes `'resources'`. The model takes any string and
  defaults to `children`.
- `getBlockFromSnapshot` is not part of this model. The model treats a
  target id missing from the snapshot as a fault that produces no
  transaction: `RemoveBlocks` returns `Failure(id)` for the first missing id.
- `removePermission` reads only the `(type, id)` of its argument. The call
  at StoryConfigPopOver.tsx line 89 passes a record without a role, so the
  model's `RemovePermission` takes a `PermissionKey`.

## Model

| member | source | states |
|---|---|---|
| StoryConfig.RemovePermission | packages/web/src/components/StoryConfigPopOver.tsx:45-51 | the result never grows, and an entry is in it iff it is in the input and its `(type, id)` differs from the key |
| StoryConfig.RemovePermissionKeepsOrder | packages/web/src/components/StoryConfigPopOver.tsx:45-51 | the result is the input with exactly the entries of other keys kept, at strictly increasing positions (an order-preserving subsequence) |
| StoryConfig.RemovePermissionAppend | packages/web/src/components/StoryConfigPopOver.tsx:45-51 | removing a key from a concatenation removes it from each part |
| StoryConfig.RemovePermissionAbsent | packages/web/src/components/StoryConfigPopOver.tsx:45-51 | a list with no entry of the key is returned unchanged |
| StoryConfig.UpsertPermission | packages/web/src/components/StoryConfigPopOver.tsx:37-43 | the result ends with the new permission, and the entries before it are exactly `removePermission`'s result for its key, so the kept entries keep their order and their duplicates; no earlier entry shares its key, every entry of another key is kept, and nothing else appears |
| StoryConfig.UpsertPermissionIdempotent | packages/web/src/components/StoryConfigPopOver.tsx:37-43 | upserting the same permission twice gives the same list as upserting it once |
| StoryConfig.RemovePermissionPreservesUniqueKeys | packages/web/src/components/StoryConfigPopOver.tsx:45-51 | a list with at most one entry per `(type, id)` keeps that property after a remove |
| StoryConfig.UpsertPermissionPreservesUniqueKeys | packages/web/src/components/StoryConfigPopOver.tsx:37-43 | a list with at most one entry per `(type, id)` keeps that property after an upsert |
| StoryConfig.ApplyEditsPreservesUniqueKeys | packages/web/src/components/StoryConfigPopOver.tsx:37-51 | any sequence of upserts and removes keeps at most one entry per `(type, id)` |
| StoryConfig.SetWorkspacePermission | packages/web/src/components/StoryConfigPopOver.tsx:68-102 | a permission update is emitted iff the user can write and is logged in, and it is a single `setPermissions` commit on the story |
| StoryConfig.SharingListSet | packages/web/src/components/StoryConfigPopOver.tsx:74-86 | setting a role commits the story's entries without the workspace-wide one and without the user's, in their order, then the workspace-wide entry with that role, then the user's manager entry |
| StoryConfig.SharingListCleared | packages/web/src/components/StoryConfigPopOver.tsx:87-98 | clearing the role commits the story's entries without the workspace-wide one and without the user's, in their order, then the user's manager entry |
| StoryConfig.SetWorkspacePermissionOutcome | packages/web/src/components/StoryConfigPopOver.tsx:74-98 | the new list ends with the user's manager entry; with a role it has exactly one id-less workspace entry, with that role, just before it; with no role it has none; every other entry of the story is kept |
| StoryConfig.SetWorkspacePermissionStatus | packages/web/src/components/StoryConfigPopOver.tsx:68-136 | a commentator role makes the story read-only; any other role (e.g. `manager`, which the read-only switch sets when turned off) leaves it read-only iff a workspace entry carrying an id grants `commentator`; any role makes it not private; clearing the role makes it private iff no workspace entry carried an id |
| StoryConfig.StatusAfterSet | packages/web/src/components/StoryConfigPopOver.tsx:74-86 | the flags after setting a role, as in `SetWorkspacePermissionStatus` |
| StoryConfig.StatusOfSetList | packages/web/src/components/StoryConfigPopOver.tsx:129-136 | for the list a role update commits, read-only holds for a commentator role; for another role, read-only holds iff a workspace commentator entry with an id was kept; the list is never private |
| StoryConfig.StatusAfterClear | packages/web/src/components/StoryConfigPopOver.tsx:87-98 | after clearing the role, the story is private iff none of its workspace entries carried an id |
| StoryConfig.AnyWorkspaceCommentator | packages/web/src/components/StoryConfigPopOver.tsx:129-131 | the `.some` scan is true iff some entry is a workspace entry with role commentator |
| StoryConfig.AnyWorkspaceEntry | packages/web/src/components/StoryConfigPopOver.tsx:133-136 | the `.some` scan is true iff some entry is a workspace entry |
| StoryConfig.ReadOnlyStatus | packages/web/src/components/StoryConfigPopOver.tsx:129-131 | read-only iff the story has a permission list holding a workspace commentator entry |
| StoryConfig.PrivateStatus | packages/web/src/components/StoryConfigPopOver.tsx:133-136 | private iff the story has no permission list or no workspace entry in it |
| StoryConfig.SetStoryFormat | packages/web/src/components/StoryConfigPopOver.tsx:105-119 | one `update` of `['format']` on the story in table `block`, whose map has the old keys plus the key, maps the key to the value and leaves every other key unchanged |
| StoryConfig.NewStoryIsSharedAndWritable | packages/web/src/hooks/useBlockTranscation.ts:58-85 | a story created by `createNewStory` is neither private nor read-only |
| BlockTransactions.ListPath | packages/web/src/hooks/useBlockTranscation.ts:126 | the list path is the caller's when given and `children` otherwise |
| BlockTransactions.RemoveBlocks | packages/web/src/hooks/useBlockTranscation.ts:125-160 | fails iff some target is missing from the snapshot, naming the first missing one; otherwise commits on the story exactly the operations `RemoveOps` gives for the targets, in input order |
| BlockTransactions.RemoveOpsLength | packages/web/src/hooks/useBlockTranscation.ts:129-152 | the number of operations is the number of targets plus the number of targets owned by the story |
| BlockTransactions.RemoveOpsAt | packages/web/src/hooks/useBlockTranscation.ts:130-151 | target k's `listRemove` on its parent (path `[path]`, args `{id}`) sits at k plus the owned targets before it; an owned target's tombstone comes right after it; for any other target the next operation is the next target's `listRemove`, or the list ends there when it is the last target |
| BlockTransactions.UnlinkIndexNext | packages/web/src/hooks/useBlockTranscation.ts:130-151 | each target's `listRemove` comes one position after the previous target's, or two when the previous target was owned and got its tombstone in between |
| BlockTransactions.RemoveOpsOrigin | packages/web/src/hooks/useBlockTranscation.ts:130-151 | every operation is a target's unlink or the tombstone of an owned target |
| BlockTransactions.TombstoneIffOwned | packages/web/src/hooks/useBlockTranscation.ts:143-151 | a block is tombstoned iff it is a target and its `storyId` is the edited story |
| BlockTransactions.MoveBlocks | packages/web/src/hooks/useBlockTranscation.ts:30-46 | the move builder always gets `deleteSourceBlock: true` with the caller's story, fragment, target and direction |
| BlockTransactions.InsertBlocks | packages/web/src/hooks/useBlockTranscation.ts:90-123 | the insert builder gets exactly the looked-up target block, together with the caller's story, fragment, direction and path, or `children` when no path is given |
| BlockTransactions.CreateNewThought | packages/web/src/hooks/useBlockTranscation.ts:48-56 | the thought id is the given one, even when empty, and otherwise a generated one |
| BlockTransactions.CreateNewStory | packages/web/src/hooks/useBlockTranscation.ts:58-88 | exactly one `set` op whose id, commit story id, block id and block `storyId` all equal the chosen id (a given non-empty id, else a generated one); the block is a Story under the workspace with `[{manager, workspace}]` permissions and title `[[title]]` for a non-empty title, else `[]` |
| BlockTransactions.DeleteStory | packages/web/src/hooks/useBlockTranscation.ts:252-270 | exactly one `update` of `['alive']` to false on the story, which is the same tombstone `removeBlocks` emits |
| BlockTransactions.UpdateBlockPermissions | packages/web/src/hooks/useBlockTranscation.ts:162-180 | exactly one `setPermissions` op on `['permissions']` of the story carrying the given list |
| BlockTransactions.UpdateBlockProps | packages/web/src/hooks/useBlockTranscation.ts:182-200 | exactly one `set` op on the block with the caller's path and args |
| BlockTransactions.PinStory | packages/web/src/hooks/useBlockTranscation.ts:203-225 | exactly one `listBefore` op on the workspace view's `['pinnedList']` with args `{id: storyId}` |
| BlockTransactions.UnpinStory | packages/web/src/hooks/useBlockTranscation.ts:228-250 | exactly the operation `pinStory` emits with `listRemove` in place of `listBefore` |
| StoryQueries.BlockIds | packages/web/src/components/SideBarCurrentStoryQueries.tsx:88 | the fragment's children are the block ids in input order |
| StoryQueries.IndexByIdKeys | packages/web/src/components/SideBarCurrentStoryQueries.tsx:88-92 | the keys of the fragment's data are exactly its children |
| StoryQueries.IndexByIdLastWins | packages/web/src/components/SideBarCurrentStoryQueries.tsx:89-92 | each id maps to the last block that carries it |
| StoryQueries.IndexByIdDistinct | packages/web/src/components/SideBarCurrentStoryQueries.tsx:89-92 | with distinct ids, every block is stored under its own id |
| StoryQueries.BuildFragment | packages/web/src/components/SideBarCurrentStoryQueries.tsx:87-93 | the loop that fills the dictionary yields children `BlockIds` and data `IndexById` |
| StoryQueries.CreateNewQuery | packages/web/src/components/SideBarCurrentStoryQueries.tsx:77-99 | nothing for an empty story id; otherwise one SQL block with `storyId = parentId = storyId` and empty sql, inserted as a child of the story into `resources` |
| StoryQueries.ImportQueryToStory | packages/web/src/components/SideBarCurrentStoryQueries.tsx:142-162 | exactly one `listBefore` op on the story's `['resources']` in table `block` with args `{id: blockId}` |
| StoryQueries.ImportCandidates | packages/web/src/components/SideBarCurrentStoryQueries.tsx:212-215 | a search result is offered iff it is not already among the story's resources |
| StoryQueries.ImportOfOfferedIsNew | packages/web/src/components/SideBarCurrentStoryQueries.tsx:142-215 | importing an offered result adds a search result that is not yet a resource of the story |
| StoryQueries.ResourceIcon | packages/web/src/components/SideBarCurrentStoryQueries.tsx:350-362 | back link iff the block belongs to another story; otherwise data asset iff QueryBuilder, dbt iff DBT, sql for everything else |
| StoryQueries.DragPayload | packages/web/src/components/SideBarCurrentStoryQueries.tsx:301-319 | a Visualization block of the story (`storyId = parentId = storyId`) whose content is `fromDataAssetId` iff the item is a data asset and `queryId` otherwise, both naming the dragged block |

## Left out

- SetStoryFormat: a key set to `undefined` (the "Inherited" connector choice) stays in the committed map as `Undefined`. A JSON payload would drop the key instead, and that serialization is not part of this model.
- `commit`, `saveTranscations`, `waitForTranscationApplied` and `getBlock` perform network or asynchronous I/O. Actions return the commit they would dispatch, and looked-up blocks and snapshots are parameters.
- The transaction id that `createTranscation` assigns is not modelled, because its generator is not part of this model.
- `insertBlocksAndMoveOperations`, `moveBlocksTranscation`, `duplicateStoryTranscation` and `createThoughtTranscation` are not part of this model. `InsertBlocks`, `MoveBlocks` and `CreateNewThought` state only the arguments these builders receive.
- `duplicateStory`, and the popover's `duplicateStoryHandler` that awaits it and navigates, only forward to `duplicateStoryTranscation`, so they are left out with it.
- `createEmptyBlock` is not part of this model. Its defaults and the id it generates are not modelled. Generated ids are parameters, and unset optional block fields are `None`.
- Whether `blockIdGenerator` yields unique ids is not modelled, because its implementation is not part of this model.
- `isDataAssetBlock` is not part of this model, so `DragPayload` takes its answer as a boolean.
- Opening the question editor after `createNewQuery`, navigation, toasts, clipboard, date formatting and the `console.log` line are UI effects with no stateable result.
- All rendering (JSX, CSS, popovers, drag-and-drop hooks, scrolling, i18n) is presentation only.
- The React context and the `invariant` in `useBlockTranscations` are framework plumbing.
- The capability check `useStoryPermissions` is an input. `SetWorkspacePermission` takes `canWrite` and the logged-in user's id as parameters.
- Roles other than manager and commentator are collapsed into one constructor, `OtherRole`, whose name is never `manager` or `commentator`, because the full role type is not part of this model.
- The position at which `listBefore` places an id without an anchor is not modelled, because the list semantics belong to the dispatcher.
