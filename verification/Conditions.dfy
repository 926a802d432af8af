/** Status conditions of a FileSystemClaim and of the storage resources, and the one helper
    that writes them.  A condition list is scanned in two ways by the controller: by first
    match (`Find`) and by any match (`IsTrue`).  The two agree exactly when the list carries
    at most one condition per type, which `UpdateCondition` preserves. */
module Conditions {

  datatype Option<+T> = None | Some(value: T)

  datatype Status = True | False | Unknown

  datatype ConditionType =
    | Ready
    | DeviceValidated
    | LocalDiskCreated
    | FileSystemCreated
    | StorageClassCreated
    | DeletionBlocked
    | Used
    | Success
    | Healthy

  datatype Reason =
    | LocalDiskCreationFailed
    | LocalDiskCreationSucceeded
    | LocalDiskCreationInProgress
    | FileSystemCreationFailed
    | FileSystemCreationSucceeded
    | FileSystemCreationInProgress
    | StorageClassCreationFailed
    | StorageClassCreationSucceeded
    | DeviceValidationFailed
    | DeviceValidationSucceeded
    | StorageClassInUse
    | FileSystemLabelNotPresent
    | StorageClassDeleted
    | FilesystemDeleted
    | LocalDiskDeleted
    | ProvisioningFailed
    | ProvisioningSucceeded
    | ProvisioningInProgress
    | ValidationFailed
    | DeletionRequested
    | ImmutableFieldModified
    | MigrationComplete
    | OtherReason(name: string)

  datatype VolumePhase = Bound | Released | OtherPhase

  /** Human-readable messages, up to the equality the controller tests. */
  datatype Message =
    | Text(text: string)
    | DevicesValid
    | DevicesInvalid
    | DevicesModified(owned: set<string>, current: seq<string>)
    | DisksCreated
    | WaitingForDisks
    | AllDisksReady(count: nat)
    | ResourceProblem(resource: string, problem: Problem)
    | CreationRejected(cause: Cause)
    | CreationFailed
    | FilesystemCreated
    | WaitingForFilesystem
    | FilesystemHealthy
    | ClassCreated
    | ClassPresent
    | AllProvisioned
    | StillProvisioning
    | DeletionNotice
    | VolumesInUse(shown: seq<(string, VolumePhase)>, more: nat)
    | LabelMissing(filesystem: string)
    | ClassGone
    | FilesystemGone
    | DisksGone
    | DevicesMigrated
    | DisksMigrated(count: nat)
    | FilesystemMigrated
    | ClassMigrated
    | AllMigrated

  /** What a failed health check reports about one resource. */
  datatype Problem =
    | NoConditions
    | Missing(kind: ConditionType)
    | Reported(message: Message)
    | UsedByNobody
    | UsedByForeign(filesystem: string)

  /** Why a resource could not be created. */
  datatype Cause =
    | NoStorageNode
    | NoWwn(device: string)
    | BadName(wwn: string)
    | CreateRejected(name: string)
    | TooMany(count: nat)

  datatype Condition = Condition(kind: ConditionType, status: Status, reason: Reason, message: Message, since: int)

  // The first condition of a type, as the library's lookup returns it.
  function Find(conditions: seq<Condition>, kind: ConditionType): (r: Option<Condition>)
    ensures r.Some? ==> r.value in conditions && r.value.kind == kind
    ensures r.None? ==> forall c :: c in conditions ==> c.kind != kind
  {
    if conditions == [] then None
    else if conditions[0].kind == kind then Some(conditions[0])
    else Find(conditions[1..], kind)
  }

  // Whether any condition of a type is True, as the controller's own scan decides it.
  predicate IsTrue(conditions: seq<Condition>, kind: ConditionType) {
    exists c :: c in conditions && c.kind == kind && c.status == True
  }

  predicate HasReason(conditions: seq<Condition>, kind: ConditionType, reason: Reason) {
    var c := Find(conditions, kind);
    c.Some? && c.value.reason == reason
  }

  // At most one condition of each type.
  predicate Unique(conditions: seq<Condition>) {
    forall i, j :: 0 <= i < j < |conditions| ==> conditions[i].kind != conditions[j].kind
  }

  // What the update helper computes: overwrite the first condition of the type, or append.
  function Updated(conditions: seq<Condition>, c: Condition): seq<Condition> {
    if conditions == [] then [c]
    else if conditions[0].kind == c.kind then [c] + conditions[1..]
    else [conditions[0]] + Updated(conditions[1..], c)
  }

  function UpdatedAll(conditions: seq<Condition>, news: seq<Condition>): seq<Condition>
    decreases |news|
  {
    if news == [] then conditions
    else UpdatedAll(Updated(conditions, news[0]), news[1..])
  }

  // utils.UpdateCondition: scan for the first condition of the type, overwrite it, else append.
  method UpdateCondition(conditions: seq<Condition>, c: Condition) returns (r: seq<Condition>)
    ensures r == Updated(conditions, c)
    ensures forall k :: Find(r, k) == if k == c.kind then Some(c) else Find(conditions, k)
    ensures Unique(conditions) ==> Unique(r)
  {
    UpdatedFinds(conditions, c);
    UpdatedUnique(conditions, c);
    for i := 0 to |conditions|
      invariant forall j :: 0 <= j < i ==> conditions[j].kind != c.kind
    {
      if conditions[i].kind == c.kind {
        UpdatedAt(conditions, c, i);
        return conditions[i := c];
      }
    }
    UpdatedAbsent(conditions, c);
    r := conditions + [c];
  }

  lemma UpdatedAt(conditions: seq<Condition>, c: Condition, i: nat)
    requires i < |conditions| && conditions[i].kind == c.kind
    requires forall j :: 0 <= j < i ==> conditions[j].kind != c.kind
    ensures Updated(conditions, c) == conditions[i := c]
  {
    if i > 0 {
      UpdatedAt(conditions[1..], c, i - 1);
    }
  }

  lemma UpdatedAbsent(conditions: seq<Condition>, c: Condition)
    requires forall j :: 0 <= j < |conditions| ==> conditions[j].kind != c.kind
    ensures Updated(conditions, c) == conditions + [c]
  {
    if conditions != [] {
      UpdatedAbsent(conditions[1..], c);
    }
  }

  lemma {:induction false} UpdatedFind(conditions: seq<Condition>, c: Condition, kind: ConditionType)
    ensures Find(Updated(conditions, c), kind) == if kind == c.kind then Some(c) else Find(conditions, kind)
  {
    if conditions != [] && conditions[0].kind != c.kind {
      UpdatedFind(conditions[1..], c, kind);
      assert Updated(conditions, c)[1..] == Updated(conditions[1..], c);
    }
  }

  lemma UpdatedFinds(conditions: seq<Condition>, c: Condition)
    ensures forall k :: Find(Updated(conditions, c), k) == if k == c.kind then Some(c) else Find(conditions, k)
  {
    forall k ensures Find(Updated(conditions, c), k) == if k == c.kind then Some(c) else Find(conditions, k) {
      UpdatedFind(conditions, c, k);
    }
  }

  lemma {:induction false} UpdatedMembers(conditions: seq<Condition>, c: Condition)
    ensures forall x :: x in Updated(conditions, c) ==> x == c || x in conditions
  {
    if conditions != [] && conditions[0].kind != c.kind {
      UpdatedMembers(conditions[1..], c);
    }
  }

  lemma {:induction false} UpdatedUnique(conditions: seq<Condition>, c: Condition)
    ensures Unique(conditions) ==> Unique(Updated(conditions, c))
  {
    if Unique(conditions) && conditions != [] {
      var rest := conditions[1..];
      assert Unique(rest) by {
        forall i, j | 0 <= i < j < |rest| ensures rest[i].kind != rest[j].kind {
          assert conditions[i + 1].kind != conditions[j + 1].kind;
        }
      }
      if conditions[0].kind != c.kind {
        UpdatedUnique(rest, c);
        UpdatedMembers(rest, c);
        var u := Updated(rest, c);
        forall j | 0 <= j < |u| ensures u[j].kind != conditions[0].kind {
          if u[j].kind != c.kind {
            assert u[j] in rest;
          }
        }
      }
    }
  }

  // With one condition per type, scanning for any True condition is testing the first one.
  lemma TrueIsFirst(conditions: seq<Condition>, kind: ConditionType)
    requires Unique(conditions)
    ensures IsTrue(conditions, kind) <==> Find(conditions, kind).Some? && Find(conditions, kind).value.status == True
  {
    var f := Find(conditions, kind);
    if IsTrue(conditions, kind) {
      var c :| c in conditions && c.kind == kind && c.status == True;
      assert f.Some?;
      var i :| 0 <= i < |conditions| && conditions[i] == c;
      var j :| 0 <= j < |conditions| && conditions[j] == f.value;
      assert i == j;
    }
  }

  // Without that invariant the two scans can disagree: a stale duplicate makes IsTrue hold
  // although the first condition of the type is False.
  lemma TrueIsNotFirstWithoutUnique() returns (cs: seq<Condition>)
    ensures cs == [
      Condition(Ready, False, ProvisioningInProgress, StillProvisioning, 0),
      Condition(Ready, True, ProvisioningSucceeded, AllProvisioned, 0)]
    ensures IsTrue(cs, Ready) && Find(cs, Ready) == Some(cs[0]) && cs[0].status == False
  {
    cs := [
      Condition(Ready, False, ProvisioningInProgress, StillProvisioning, 0),
      Condition(Ready, True, ProvisioningSucceeded, AllProvisioned, 0)];
    assert cs[1] in cs;
  }

  lemma {:induction false} UpdatedAllUnique(conditions: seq<Condition>, news: seq<Condition>)
    requires Unique(conditions)
    ensures Unique(UpdatedAll(conditions, news))
    decreases |news|
  {
    if news != [] {
      UpdatedUnique(conditions, news[0]);
      UpdatedAllUnique(Updated(conditions, news[0]), news[1..]);
    }
  }

  lemma {:induction false} UpdatedAllFind(conditions: seq<Condition>, news: seq<Condition>, kind: ConditionType)
    requires forall c :: c in news ==> c.kind != kind
    ensures Find(UpdatedAll(conditions, news), kind) == Find(conditions, kind)
    decreases |news|
  {
    if news != [] {
      UpdatedFind(conditions, news[0], kind);
      UpdatedAllFind(Updated(conditions, news[0]), news[1..], kind);
    }
  }

  lemma {:induction false} UpdatedAllMembers(conditions: seq<Condition>, news: seq<Condition>, x: Condition)
    requires x in UpdatedAll(conditions, news)
    ensures x in news || x in conditions
    decreases |news|
  {
    if news != [] {
      UpdatedAllMembers(Updated(conditions, news[0]), news[1..], x);
      UpdatedMembers(conditions, news[0]);
    }
  }

  // News of a type that are all True keep the type True.
  lemma {:induction false} StaysTrue(conditions: seq<Condition>, news: seq<Condition>, kind: ConditionType)
    requires Unique(conditions) && IsTrue(conditions, kind)
    requires forall x :: x in news && x.kind == kind ==> x.status == True
    ensures IsTrue(UpdatedAll(conditions, news), kind)
    decreases |news|
  {
    if news != [] {
      var next := Updated(conditions, news[0]);
      UpdatedFind(conditions, news[0], kind);
      UpdatedUnique(conditions, news[0]);
      TrueIsFirst(conditions, kind);
      TrueIsFirst(next, kind);
      StaysTrue(next, news[1..], kind);
    }
  }

  // News of a type that are all not True leave the condition as it was, or not True.
  lemma {:induction false} KeptOrNotTrue(conditions: seq<Condition>, news: seq<Condition>, kind: ConditionType)
    requires forall x :: x in news && x.kind == kind ==> x.status != True
    ensures var f := Find(UpdatedAll(conditions, news), kind);
      f == Find(conditions, kind) || (f.Some? && f.value.status != True)
    decreases |news|
  {
    if news != [] {
      UpdatedFind(conditions, news[0], kind);
      KeptOrNotTrue(Updated(conditions, news[0]), news[1..], kind);
    }
  }
}
