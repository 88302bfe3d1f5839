/** The story configuration popover: permission-list utilities, the sharing
    switch built from them, the two derived status flags and the format
    update. */
module StoryConfig {
  import opened Types
  import BlockTransactions

  /** `removePermission`: drop every entry whose `(type, id)` is `key`,
      keeping the others in order. */
  function RemovePermission(permissions: seq<Permission>, key: PermissionKey): (r: seq<Permission>)
    ensures |r| <= |permissions|
    ensures forall x :: x in r <==> x in permissions && KeyOf(x) != key
  {
    if permissions == [] then []
    else if KeyOf(permissions[0]) == key then RemovePermission(permissions[1..], key)
    else [permissions[0]] + RemovePermission(permissions[1..], key)
  }

  /** `upsertPermission`: drop the entries sharing `permission`'s key, then
      append `permission`. */
  function UpsertPermission(permissions: seq<Permission>, permission: Permission): (r: seq<Permission>)
    ensures |r| > 0 && r[|r| - 1] == permission
    ensures r[..|r| - 1] == RemovePermission(permissions, KeyOf(permission))
    ensures forall i :: 0 <= i < |r| - 1 ==> KeyOf(r[i]) != KeyOf(permission)
    ensures forall x :: x in permissions && KeyOf(x) != KeyOf(permission) ==> x in r
    ensures forall x :: x in r ==> x == permission || (x in permissions && KeyOf(x) != KeyOf(permission))
  {
    var kept := RemovePermission(permissions, KeyOf(permission));
    assert forall i :: 0 <= i < |kept| ==> kept[i] in kept;
    kept + [permission]
  }

  /** At most one entry per `(type, id)`. */
  predicate UniqueKeys(permissions: seq<Permission>) {
    forall i, j :: 0 <= i < j < |permissions| ==> KeyOf(permissions[i]) != KeyOf(permissions[j])
  }

  /** Whether `r` is `s` with exactly the entries at the indices `idx` kept,
      in their original order. */
  ghost predicate KeptAt<T>(r: seq<T>, s: seq<T>, idx: seq<int>) {
    && |idx| == |r|
    && (forall k :: 0 <= k < |idx| ==> 0 <= idx[k] < |s| && r[k] == s[idx[k]])
    && (forall k, l :: 0 <= k < l < |idx| ==> idx[k] < idx[l])
  }

  function Shift(idx: seq<int>): (r: seq<int>)
    ensures |r| == |idx| && forall k :: 0 <= k < |idx| ==> r[k] == idx[k] + 1
  {
    seq(|idx|, k requires 0 <= k < |idx| => idx[k] + 1)
  }

  /** An embedding into `s` moves up by one when an entry is put in front of `s`. */
  lemma ShiftKeptAt<T>(r: seq<T>, s: seq<T>, x: T, idx: seq<int>)
    requires KeptAt(r, s, idx)
    ensures KeptAt(r, [x] + s, Shift(idx))
    ensures KeptAt([x] + r, [x] + s, [0] + Shift(idx))
  {
    var sh := Shift(idx);
    var xs := [x] + s;
    forall k | 0 <= k < |sh| ensures 0 <= sh[k] < |xs| && r[k] == xs[sh[k]] {
      assert xs[idx[k] + 1] == s[idx[k]];
    }
    var full := [0] + sh;
    var xr := [x] + r;
    forall k | 0 <= k < |full| ensures 0 <= full[k] < |xs| && xr[k] == xs[full[k]] {
      if k > 0 { assert full[k] == sh[k - 1] && xr[k] == r[k - 1]; }
    }
    forall k, l | 0 <= k < l < |full| ensures full[k] < full[l] {
      if k > 0 { assert full[k] == sh[k - 1] && full[l] == sh[l - 1]; }
    }
  }

  /** The shifted indices are the old ones moved up by one, and never 0. */
  lemma ShiftMembers(idx: seq<int>, n: nat)
    requires forall k :: 0 <= k < |idx| ==> 0 <= idx[k]
    ensures forall i :: 1 <= i <= n ==> (i in Shift(idx) <==> i - 1 in idx)
    ensures 0 !in Shift(idx)
  {
    var sh := Shift(idx);
    forall i | 1 <= i <= n ensures i in sh <==> i - 1 in idx {
      if i - 1 in idx {
        var k :| 0 <= k < |idx| && idx[k] == i - 1;
        assert sh[k] == i;
      }
    }
  }

  /** `removePermission` keeps exactly the entries whose key differs, in their
      original relative order. */
  lemma {:induction false} RemovePermissionKeepsOrder(permissions: seq<Permission>, key: PermissionKey)
    returns (idx: seq<int>)
    ensures KeptAt(RemovePermission(permissions, key), permissions, idx)
    ensures forall i :: 0 <= i < |permissions| ==> (i in idx <==> KeyOf(permissions[i]) != key)
  {
    if permissions == [] {
      idx := [];
    } else {
      var rest := permissions[1..];
      var restIdx := RemovePermissionKeepsOrder(rest, key);
      ShiftKeptAt(RemovePermission(rest, key), rest, permissions[0], restIdx);
      ShiftMembers(restIdx, |rest|);
      assert [permissions[0]] + rest == permissions;
      if KeyOf(permissions[0]) == key {
        idx := Shift(restIdx);
      } else {
        idx := [0] + Shift(restIdx);
      }
      forall i | 1 <= i < |permissions| ensures i in idx <==> KeyOf(permissions[i]) != key {
        assert permissions[i] == rest[i - 1];
      }
    }
  }

  /** Filtering distributes over concatenation. */
  lemma {:induction false} RemovePermissionAppend(a: seq<Permission>, b: seq<Permission>, key: PermissionKey)
    ensures RemovePermission(a + b, key) == RemovePermission(a, key) + RemovePermission(b, key)
  {
    if a != [] {
      assert (a + b)[1..] == a[1..] + b;
      RemovePermissionAppend(a[1..], b, key);
    } else {
      assert a + b == b;
    }
  }

  /** A list with no entry of `key` is left unchanged. */
  lemma {:induction false} RemovePermissionAbsent(permissions: seq<Permission>, key: PermissionKey)
    requires forall i :: 0 <= i < |permissions| ==> KeyOf(permissions[i]) != key
    ensures RemovePermission(permissions, key) == permissions
  {
    if permissions != [] {
      RemovePermissionAbsent(permissions[1..], key);
    }
  }

  /** `upsert(upsert(L, P), P) == upsert(L, P)`. */
  lemma UpsertPermissionIdempotent(permissions: seq<Permission>, permission: Permission)
    ensures UpsertPermission(UpsertPermission(permissions, permission), permission)
         == UpsertPermission(permissions, permission)
  {
    var key := KeyOf(permission);
    var kept := RemovePermission(permissions, key);
    RemovePermissionAppend(kept, [permission], key);
    RemovePermissionAbsent(kept, key);
    assert forall i :: 0 <= i < |kept| ==> kept[i] in kept;
  }

  lemma {:induction false} RemovePermissionPreservesUniqueKeys(permissions: seq<Permission>, key: PermissionKey)
    requires UniqueKeys(permissions)
    ensures UniqueKeys(RemovePermission(permissions, key))
  {
    if permissions != [] {
      var rest := permissions[1..];
      assert UniqueKeys(rest) by {
        forall i, j | 0 <= i < j < |rest| ensures KeyOf(rest[i]) != KeyOf(rest[j]) {
          assert rest[i] == permissions[i + 1] && rest[j] == permissions[j + 1];
        }
      }
      RemovePermissionPreservesUniqueKeys(rest, key);
      if KeyOf(permissions[0]) != key {
        var tail := RemovePermission(rest, key);
        forall j | 0 <= j < |tail| ensures KeyOf(permissions[0]) != KeyOf(tail[j]) {
          assert tail[j] in tail;
          var m :| 0 <= m < |rest| && rest[m] == tail[j];
          assert permissions[m + 1] == tail[j];
        }
      }
    }
  }

  lemma UpsertPermissionPreservesUniqueKeys(permissions: seq<Permission>, permission: Permission)
    requires UniqueKeys(permissions)
    ensures UniqueKeys(UpsertPermission(permissions, permission))
  {
    RemovePermissionPreservesUniqueKeys(permissions, KeyOf(permission));
  }

  /** A single permission-list edit. */
  datatype PermissionEdit = Upsert(permission: Permission) | Remove(key: PermissionKey)

  function ApplyEdits(permissions: seq<Permission>, edits: seq<PermissionEdit>): seq<Permission>
    decreases |edits|
  {
    if edits == [] then permissions
    else
      var next := match edits[0]
        case Upsert(p) => UpsertPermission(permissions, p)
        case Remove(k) => RemovePermission(permissions, k);
      ApplyEdits(next, edits[1..])
  }

  /** Any sequence of upserts and removes keeps at most one entry per key. */
  lemma {:induction false} ApplyEditsPreservesUniqueKeys(permissions: seq<Permission>, edits: seq<PermissionEdit>)
    requires UniqueKeys(permissions)
    ensures UniqueKeys(ApplyEdits(permissions, edits))
    decreases |edits|
  {
    if edits != [] {
      match edits[0]
      case Upsert(p) =>
        UpsertPermissionPreservesUniqueKeys(permissions, p);
        ApplyEditsPreservesUniqueKeys(UpsertPermission(permissions, p), edits[1..]);
      case Remove(k) =>
        RemovePermissionPreservesUniqueKeys(permissions, k);
        ApplyEditsPreservesUniqueKeys(RemovePermission(permissions, k), edits[1..]);
    }
  }

  /** The key of the workspace-wide sharing entry. */
  const WorkspaceWide: PermissionKey := PermissionKey(WorkspaceEntity, None)

  function ManagerEntry(userId: string): Permission {
    Permission(UserEntity, Some(userId), Manager)
  }

  /** `setWorkspacePermission`: with write access and a logged-in user, set
      (or, for `None`, clear) the workspace-wide role and make the user a
      manager; otherwise emit nothing. */
  function SetWorkspacePermission(
    canWrite: bool, user: Option<string>, storyId: string,
    storyPermissions: Option<seq<Permission>>, role: Option<Role>): (r: Option<Commit>)
    ensures r.Some? <==> canWrite && user.Some?
    ensures r.Some? ==> r.value == BlockTransactions.UpdateBlockPermissions(storyId, NewPermissions(r))
  {
    if !canWrite then None
    else if user.None? then None
    else
      var current := storyPermissions.GetOr([]);
      var withRole :=
        if role.Some? then UpsertPermission(current, Permission(WorkspaceEntity, None, role.value))
        else RemovePermission(current, WorkspaceWide);
      Some(BlockTransactions.UpdateBlockPermissions(storyId, UpsertPermission(withRole, ManagerEntry(user.value))))
  }

  /** The permission list carried by a `setPermissions` commit. */
  function NewPermissions(c: Option<Commit>): seq<Permission> {
    if c.Some? && |c.value.operations| > 0 && c.value.operations[0].args.PermissionList?
    then c.value.operations[0].args.permissions else []
  }

  /** The list the sharing switch commits when it sets a role: the story's
      entries without the workspace-wide one and without the user's, in their
      order, then the new workspace-wide entry, then the user's manager entry. */
  lemma SharingListSet(user: string, storyId: string, storyPermissions: Option<seq<Permission>>, role: Role)
    ensures NewPermissions(SetWorkspacePermission(true, Some(user), storyId, storyPermissions, Some(role)))
         == RemovePermission(RemovePermission(storyPermissions.GetOr([]), WorkspaceWide), KeyOf(ManagerEntry(user)))
            + [Permission(WorkspaceEntity, None, role)] + [ManagerEntry(user)]
  {
    var mgr := ManagerEntry(user);
    var ws := Permission(WorkspaceEntity, None, role);
    var kept := RemovePermission(storyPermissions.GetOr([]), WorkspaceWide);
    var withRole := UpsertPermission(storyPermissions.GetOr([]), ws);
    var up := UpsertPermission(withRole, mgr);
    assert NewPermissions(SetWorkspacePermission(true, Some(user), storyId, storyPermissions, Some(role))) == up;
    assert up == RemovePermission(withRole, KeyOf(mgr)) + [mgr] by {
      assert up == up[..|up| - 1] + [up[|up| - 1]];
    }
    assert withRole == kept + [ws] by {
      assert withRole == withRole[..|withRole| - 1] + [withRole[|withRole| - 1]];
    }
    RemovePermissionAppend(kept, [ws], KeyOf(mgr));
    assert RemovePermission([ws], KeyOf(mgr)) == [ws] by {
      assert [ws][1..] == [];
    }
  }

  /** The list the sharing switch commits when it clears the role: the story's
      entries without the workspace-wide one and without the user's, in their
      order, then the user's manager entry. */
  lemma SharingListCleared(user: string, storyId: string, storyPermissions: Option<seq<Permission>>)
    ensures NewPermissions(SetWorkspacePermission(true, Some(user), storyId, storyPermissions, None))
         == RemovePermission(RemovePermission(storyPermissions.GetOr([]), WorkspaceWide), KeyOf(ManagerEntry(user)))
            + [ManagerEntry(user)]
  {
    var mgr := ManagerEntry(user);
    var kept := RemovePermission(storyPermissions.GetOr([]), WorkspaceWide);
    var up := UpsertPermission(kept, mgr);
    assert NewPermissions(SetWorkspacePermission(true, Some(user), storyId, storyPermissions, None)) == up;
    assert up == up[..|up| - 1] + [up[|up| - 1]];
  }

  /** With a role, the new list holds exactly one workspace-wide entry, with
      that role, right before the user's manager entry, which ends the list;
      with `None` it holds none. Every other entry of the story survives. */
  lemma SetWorkspacePermissionOutcome(
    user: string, storyId: string, storyPermissions: Option<seq<Permission>>, role: Option<Role>)
    ensures var r := SetWorkspacePermission(true, Some(user), storyId, storyPermissions, role);
      var ps := NewPermissions(r);
      && |ps| >= 1 && ps[|ps| - 1] == ManagerEntry(user)
      && (role.Some? ==>
            && |ps| >= 2 && ps[|ps| - 2] == Permission(WorkspaceEntity, None, role.value)
            && forall i :: 0 <= i < |ps| && KeyOf(ps[i]) == WorkspaceWide ==> i == |ps| - 2)
      && (role.None? ==> forall i :: 0 <= i < |ps| ==> KeyOf(ps[i]) != WorkspaceWide)
      && forall x :: (x in storyPermissions.GetOr([]) && KeyOf(x) != WorkspaceWide
                      && KeyOf(x) != KeyOf(ManagerEntry(user))) ==> x in ps
  {
    var kept := RemovePermission(RemovePermission(storyPermissions.GetOr([]), WorkspaceWide), KeyOf(ManagerEntry(user)));
    assert forall i :: 0 <= i < |kept| ==> kept[i] in kept;
    if role.Some? {
      SharingListSet(user, storyId, storyPermissions, role.value);
    } else {
      SharingListCleared(user, storyId, storyPermissions);
    }
  }

  predicate IsWorkspaceCommentator(p: Permission) {
    p.ptype == WorkspaceEntity && p.role == Commentator
  }

  /** `.some(p => p.type === 'workspace' && p.role === 'commentator')` */
  function AnyWorkspaceCommentator(permissions: seq<Permission>): (r: bool)
    ensures r <==> exists i :: 0 <= i < |permissions| && IsWorkspaceCommentator(permissions[i])
  {
    if permissions == [] then false
    else IsWorkspaceCommentator(permissions[0]) || AnyWorkspaceCommentator(permissions[1..])
  }

  /** `.some(p => p.type === 'workspace')` */
  function AnyWorkspaceEntry(permissions: seq<Permission>): (r: bool)
    ensures r <==> exists i :: 0 <= i < |permissions| && permissions[i].ptype == WorkspaceEntity
  {
    if permissions == [] then false
    else permissions[0].ptype == WorkspaceEntity || AnyWorkspaceEntry(permissions[1..])
  }

  /** Read-only: some workspace entry grants only `commentator`. A story
      without a permission list is not read-only. */
  function ReadOnlyStatus(permissions: Option<seq<Permission>>): (r: bool)
    ensures r <==> permissions.Some? && exists p :: p in permissions.value && IsWorkspaceCommentator(p)
  {
    permissions.Some? && AnyWorkspaceCommentator(permissions.value)
  }

  /** Private: no workspace entry at all. A story without a permission list is private. */
  function PrivateStatus(permissions: Option<seq<Permission>>): (r: bool)
    ensures r <==> permissions.None? || forall p :: p in permissions.value ==> p.ptype != WorkspaceEntity
  {
    !(permissions.Some? && AnyWorkspaceEntry(permissions.value))
  }

  /** The flags after the sharing switch: a commentator role makes the story
      read-only and any role makes it not private. Any other role leaves it
      read-only exactly when a workspace entry carrying an id grants
      `commentator`, and clearing the role makes it private exactly when no
      workspace entry carries an id: the switch touches only the id-less entry. */
  lemma SetWorkspacePermissionStatus(
    user: string, storyId: string, storyPermissions: Option<seq<Permission>>, role: Option<Role>)
    ensures var ps := NewPermissions(SetWorkspacePermission(true, Some(user), storyId, storyPermissions, role));
      && (role == Some(Commentator) ==> ReadOnlyStatus(Some(ps)))
      && (role.Some? ==> !PrivateStatus(Some(ps)))
      && (role.Some? && role.value != Commentator ==>
            (ReadOnlyStatus(Some(ps)) <==>
             exists p :: p in storyPermissions.GetOr([]) && IsWorkspaceCommentator(p) && p.id.Some?))
      && (role.None? ==>
            (PrivateStatus(Some(ps)) <==>
             forall p :: p in storyPermissions.GetOr([]) && p.ptype == WorkspaceEntity ==> p.id.None?))
  {
    if role.Some? {
      StatusAfterSet(user, storyId, storyPermissions, role.value);
    } else {
      StatusAfterClear(user, storyId, storyPermissions);
    }
  }

  /** `SetWorkspacePermissionStatus` when a role is set. */
  lemma StatusAfterSet(user: string, storyId: string, storyPermissions: Option<seq<Permission>>, role: Role)
    ensures var ps := NewPermissions(SetWorkspacePermission(true, Some(user), storyId, storyPermissions, Some(role)));
      && (role == Commentator ==> ReadOnlyStatus(Some(ps)))
      && !PrivateStatus(Some(ps))
      && (role != Commentator ==>
            (ReadOnlyStatus(Some(ps)) <==>
             exists p :: p in storyPermissions.GetOr([]) && IsWorkspaceCommentator(p) && p.id.Some?))
  {
    SharingListSet(user, storyId, storyPermissions, role);
    StatusOfSetList(storyPermissions.GetOr([]), ManagerEntry(user), role);
  }

  /** The flags of a list that lost its workspace-wide and `manager`'s entries
      and then got a workspace-wide entry with `role` and `manager` appended. */
  lemma StatusOfSetList(current: seq<Permission>, manager: Permission, role: Role)
    requires manager.ptype == UserEntity
    ensures var ps := RemovePermission(RemovePermission(current, WorkspaceWide), KeyOf(manager))
                      + [Permission(WorkspaceEntity, None, role)] + [manager];
      && (role == Commentator ==> ReadOnlyStatus(Some(ps)))
      && !PrivateStatus(Some(ps))
      && (role != Commentator ==>
            (ReadOnlyStatus(Some(ps)) <==>
             exists p :: p in current && IsWorkspaceCommentator(p) && p.id.Some?))
  {
    var ws := Permission(WorkspaceEntity, None, role);
    var kept := RemovePermission(RemovePermission(current, WorkspaceWide), KeyOf(manager));
    var ps := kept + [ws] + [manager];
    assert ws in ps by { assert ps[|kept|] == ws; }
    if role != Commentator {
      if ReadOnlyStatus(Some(ps)) {
        var p :| p in ps && IsWorkspaceCommentator(p);
        assert p in kept;
      }
      if p :| p in current && IsWorkspaceCommentator(p) && p.id.Some? {
        assert p in kept;
        assert p in ps;
      }
    }
  }

  /** `SetWorkspacePermissionStatus` when the role is cleared. */
  lemma StatusAfterClear(user: string, storyId: string, storyPermissions: Option<seq<Permission>>)
    ensures var ps := NewPermissions(SetWorkspacePermission(true, Some(user), storyId, storyPermissions, None));
      PrivateStatus(Some(ps)) <==>
        forall p :: p in storyPermissions.GetOr([]) && p.ptype == WorkspaceEntity ==> p.id.None?
  {
    SharingListCleared(user, storyId, storyPermissions);
    var ps := NewPermissions(SetWorkspacePermission(true, Some(user), storyId, storyPermissions, None));
    var kept := RemovePermission(RemovePermission(storyPermissions.GetOr([]), WorkspaceWide), KeyOf(ManagerEntry(user)));
    assert ps == kept + [ManagerEntry(user)];
  }

  /** `setStoryFormat`: one `update` of the story's `format`, carrying the old
      format with `key` set to `value` and every other key unchanged. Clearing
      the default connector passes `Undefined` as the value. */
  function SetStoryFormat(storyId: string, format: Option<map<string, Value>>, key: string, value: Value): (r: Commit)
    ensures r.storyId == storyId && |r.operations| == 1
    ensures var op := r.operations[0];
      && op.cmd == UpdateCmd && op.table == BlockTable && op.id == storyId && op.path == ["format"]
      && op.args.FormatMap?
      && key in op.args.format && op.args.format[key] == value
      && op.args.format.Keys == format.GetOr(map[]).Keys + {key}
      && forall k :: k in format.GetOr(map[]) && k != key ==> op.args.format[k] == format.GetOr(map[])[k]
  {
    var newFormat := format.GetOr(map[])[key := value];
    Commit(storyId, [Operation(UpdateCmd, BlockTable, storyId, ["format"], FormatMap(newFormat))])
  }

  /** A story created by the facade is shared with the workspace as manager:
      neither private nor read-only. */
  lemma NewStoryIsSharedAndWritable(props: Option<BlockTransactions.NewStoryProps>, generatedId: string, workspaceId: string)
    ensures var b := BlockTransactions.CreateNewStory(props, generatedId, workspaceId).operations[0].args.block;
      !PrivateStatus(b.permissions) && !ReadOnlyStatus(b.permissions)
  {
    var b := BlockTransactions.CreateNewStory(props, generatedId, workspaceId).operations[0].args.block;
    assert b.permissions.value[0] in b.permissions.value;
  }
}
