/** Shared data model: blocks, permissions and the primitive operations that
    the editor's commit pipeline receives. */
module Types {

  datatype Option<+T> = None | Some(value: T) {
    /** The `??` / default-parameter reading of an optional value. */
    function GetOr(default: T): T {
      if Some? then value else default
    }
  }

  datatype Result<+T, +E> = Success(value: T) | Failure(error: E)

  /** JSON-like payloads: the values of a block's `format` map and the
      untyped `args` a caller may pass to `updateBlockProps`. `Undefined` is a
      key written with the value `undefined`, which is not the same as `null`. */
  datatype Value =
    | Undefined
    | Null
    | Bool(b: bool)
    | Str(s: string)
    | Num(n: int)
    | Arr(items: seq<Value>)
    | Obj(fields: map<string, Value>)

  datatype PermissionType = WorkspaceEntity | UserEntity

  /** The name of a role other than `manager` and `commentator`, so that every
      role has exactly one representation. */
  type OtherRoleName = s: string | s != "manager" && s != "commentator" witness "editor"

  datatype Role = Manager | Commentator | OtherRole(name: OtherRoleName)

  /** A sharing entry of a story. `id` is absent for the workspace-wide entry. */
  datatype Permission = Permission(ptype: PermissionType, id: Option<string>, role: Role)

  /** Permission lists behave as sets keyed by `(type, id)`; the role is the payload. */
  datatype PermissionKey = PermissionKey(ptype: PermissionType, id: Option<string>)

  function KeyOf(p: Permission): PermissionKey {
    PermissionKey(p.ptype, p.id)
  }

  datatype BlockType =
    | Story
    | Thought
    | SQL
    | Visualization
    | SnapshotBlock
    | QueryBuilder
    | DBT
    | OtherType(name: string)

  datatype ParentTable = WorkspaceParent | BlockParent

  /** The type-dependent payload of a block, in the shapes this layer writes. */
  datatype Content =
    | TitleContent(title: seq<seq<string>>)
    | SqlContent(sql: string)
    | FromDataAsset(fromDataAssetId: string)
    | FromQuery(queryId: string)
    | OtherContent(fields: map<string, Value>)

  /** A block record. The optional fields are the ones the block factory fills
      with a default when its caller leaves them out; `None` stands for that
      default. `storyId` is optional on stored blocks as well. */
  datatype Block = Block(
    id: string,
    blockType: BlockType,
    parentId: string,
    parentTable: Option<ParentTable>,
    storyId: Option<string>,
    content: Content,
    children: Option<seq<string>>,
    format: Option<map<string, Value>>,
    permissions: Option<seq<Permission>>)

  /** New blocks plus the order in which they are to be attached. */
  datatype Fragment = Fragment(children: seq<string>, data: map<string, Block>)

  datatype Direction = Top | Left | Bottom | Right | Child

  datatype Table = BlockTable | WorkspaceViewTable

  datatype Command = SetCmd | UpdateCmd | ListBeforeCmd | ListRemoveCmd | SetPermissionsCmd

  /** Command-specific payloads. */
  datatype Args =
    | Flag(b: bool)
    | IdRef(id: string)
    | PermissionList(permissions: seq<Permission>)
    | FormatMap(format: map<string, Value>)
    | NewBlock(block: Block)
    | Json(v: Value)

  datatype Operation = Operation(cmd: Command, table: Table, id: string, path: seq<string>, args: Args)

  /** What a facade action hands to the story-scoped commit dispatcher. */
  datatype Commit = Commit(storyId: string, operations: seq<Operation>)
}
