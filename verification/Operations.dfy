/** The kinds of operation, their steps and how long each may take. */
module Operations {
  import opened Common

  datatype Kind =
    | Create | Update | RollingUpdate | ReplicationMode | Delete | Restart | Switchover | Backup
    | Replace | RotateCa | RotatePasswords | Resize | Upgrade | CreateReplica | PromoteReplica

  datatype StepName =
    | Place | WaitApplied | FirstBackup | OpenAccess | Activate | Settle | RollingRestart
    | NewGeneration | SetReplicationMode | RemoveReplica | Retract | WaitRemoved | Finalize
    | DoSwitchover | TakeBackup | WaitPeers | ReplaceMember | RetractOld | WaitOldRemoved | DropOld
    | CaTrustBoth | CaIssue | CaTrustNew | PasswordsOffer | PasswordsAlter | PasswordsCommit
    | ResizeRestart | PlaceReplica | AddReplica | DetachReplica | Promote | UpgradeCheck | WaitVersion

  function Steps(kind: Kind): seq<StepName> {
    match kind
    case Create => [Place, WaitApplied, FirstBackup, OpenAccess, WaitApplied, Activate]
    case Update => [WaitApplied, Settle]
    case RollingUpdate => [WaitApplied, RollingRestart, NewGeneration, WaitApplied, Settle]
    case ReplicationMode => [WaitApplied, SetReplicationMode, Settle]
    case Delete => [RemoveReplica, Retract, WaitRemoved, Finalize]
    case Restart => [RollingRestart, Settle]
    case Switchover => [DoSwitchover, Settle]
    case Backup => [TakeBackup, Settle]
    case Replace => [WaitPeers, ReplaceMember, RetractOld, WaitOldRemoved, DropOld, WaitApplied, Settle]
    case RotateCa => [CaTrustBoth, WaitApplied, CaIssue, WaitApplied, CaTrustNew, WaitApplied, Settle]
    case RotatePasswords => [PasswordsOffer, WaitApplied, PasswordsAlter, PasswordsCommit, WaitApplied, Settle]
    case Resize => [WaitApplied, ResizeRestart, Settle]
    case Upgrade => [UpgradeCheck, RollingRestart, WaitVersion, Settle]
    case CreateReplica => [PlaceReplica, AddReplica, WaitApplied, Activate]
    case PromoteReplica => [DetachReplica, Promote, WaitApplied, FirstBackup, OpenAccess, WaitApplied, Activate]
  }

  const OPERATION_TIMEOUT_SECONDS: nat := 600
  const DATA_OPERATION_TIMEOUT_SECONDS: nat := 6 * 3600

  function TimeoutSeconds(kind: Kind): nat {
    match kind
    case Create | Backup | Replace | Restart | Resize | Upgrade | CreateReplica | PromoteReplica =>
      DATA_OPERATION_TIMEOUT_SECONDS
    case _ => OPERATION_TIMEOUT_SECONDS
  }

  /** The step to go on with after the `k`th, or none after the last. */
  function StepAfter(kind: Kind, k: nat): Option<nat> {
    if k + 1 < |Steps(kind)| then Some(k + 1) else None
  }

  /** A step before `end` has the name. */
  predicate Before(kind: Kind, name: StepName, end: nat) {
    exists i | 0 <= i < |Steps(kind)| && i < end :: Steps(kind)[i] == name
  }

  /** A step opens access only in an operation that makes a database, and only after its first backup. */
  lemma AccessFollowsBackup(kind: Kind, i: nat)
    requires i < |Steps(kind)| && Steps(kind)[i] == OpenAccess
    ensures kind.Create? || kind.PromoteReplica?
    ensures Before(kind, FirstBackup, i)
  {
    match kind {
      case Create => assert Steps(kind)[2] == FirstBackup && i == 3;
      case PromoteReplica => assert Steps(kind)[3] == FirstBackup && i == 4;
      case _ =>
    }
  }

  /** The steps whose work a step builds on. */
  function BuildsOn(name: StepName): set<StepName> {
    match name
    case FirstBackup => {WaitApplied}
    case OpenAccess => {WaitApplied, FirstBackup}
    case Activate => {WaitApplied}
    case NewGeneration => {RollingRestart}
    case SetReplicationMode => {WaitApplied}
    case Retract => {RemoveReplica}
    case WaitRemoved => {Retract}
    case Finalize => {Retract, WaitRemoved}
    case ReplaceMember => {WaitPeers}
    case RetractOld => {WaitPeers, ReplaceMember}
    case WaitOldRemoved => {RetractOld}
    case DropOld => {RetractOld, WaitOldRemoved}
    case CaIssue => {CaTrustBoth, WaitApplied}
    case CaTrustNew => {CaIssue, WaitApplied}
    case PasswordsAlter => {PasswordsOffer, WaitApplied}
    case PasswordsCommit => {PasswordsOffer, PasswordsAlter}
    case ResizeRestart => {WaitApplied}
    case AddReplica => {PlaceReplica}
    case Promote => {DetachReplica}
    case WaitVersion => {UpgradeCheck, RollingRestart}
    case _ => {}
  }

  /** The steps that change what hosts are to put in place. */
  predicate Publishes(name: StepName) {
    name in {Place, PlaceReplica, OpenAccess, NewGeneration, RetractOld, CaTrustBoth, CaIssue, CaTrustNew,
             PasswordsOffer, PasswordsCommit, Promote}
  }

  /** The step that ends an operation, with nothing left to wait for. */
  predicate Closes(name: StepName) {
    name in {Settle, Activate, Finalize}
  }

  /** The step at `j` waits for hosts, and none in between publishes anything more. */
  predicate WaitsFor(kind: Kind, i: nat, j: nat) {
    && i < j < |Steps(kind)| && Steps(kind)[j] == WaitApplied
    && forall k | i < k < j :: !Publishes(Steps(kind)[k])
  }

  lemma CaInOrder(i: nat, name: StepName)
    requires i < |Steps(RotateCa)| && name in BuildsOn(Steps(RotateCa)[i])
    ensures Before(RotateCa, name, i)
  {
    var s := Steps(RotateCa);
    assert s[0] == CaTrustBoth && s[1] == WaitApplied && s[2] == CaIssue;
  }

  lemma PasswordsInOrder(i: nat, name: StepName)
    requires i < |Steps(RotatePasswords)| && name in BuildsOn(Steps(RotatePasswords)[i])
    ensures Before(RotatePasswords, name, i)
  {
    var s := Steps(RotatePasswords);
    assert s[0] == PasswordsOffer && s[1] == WaitApplied && s[2] == PasswordsAlter;
  }

  lemma ReplaceInOrder(i: nat, name: StepName)
    requires i < |Steps(Replace)| && name in BuildsOn(Steps(Replace)[i])
    ensures Before(Replace, name, i)
  {
    var s := Steps(Replace);
    assert s[0] == WaitPeers && s[1] == ReplaceMember && s[2] == RetractOld && s[3] == WaitOldRemoved;
  }

  lemma DeleteInOrder(i: nat, name: StepName)
    requires i < |Steps(Delete)| && name in BuildsOn(Steps(Delete)[i])
    ensures Before(Delete, name, i)
  {
    var s := Steps(Delete);
    assert s[0] == RemoveReplica && s[1] == Retract && s[2] == WaitRemoved;
  }

  lemma CreateInOrder(i: nat, name: StepName)
    requires i < |Steps(Create)| && name in BuildsOn(Steps(Create)[i])
    ensures Before(Create, name, i)
  {
    var s := Steps(Create);
    assert s[1] == WaitApplied && s[2] == FirstBackup;
  }

  lemma PromoteInOrder(i: nat, name: StepName)
    requires i < |Steps(PromoteReplica)| && name in BuildsOn(Steps(PromoteReplica)[i])
    ensures Before(PromoteReplica, name, i)
  {
    var s := Steps(PromoteReplica);
    assert s[0] == DetachReplica && s[2] == WaitApplied && s[3] == FirstBackup;
  }

  lemma CreateReplicaInOrder(i: nat, name: StepName)
    requires i < |Steps(CreateReplica)| && name in BuildsOn(Steps(CreateReplica)[i])
    ensures Before(CreateReplica, name, i)
  {
    var s := Steps(CreateReplica);
    assert s[0] == PlaceReplica && s[2] == WaitApplied;
  }

  lemma OthersInOrder(kind: Kind, i: nat, name: StepName)
    requires kind in {Update, RollingUpdate, ReplicationMode, Restart, Switchover, Backup, Resize, Upgrade}
    requires i < |Steps(kind)| && name in BuildsOn(Steps(kind)[i])
    ensures Before(kind, name, i)
  {
    assert Steps(kind)[0] == name || Steps(kind)[1] == name;
  }

  /** In every operation, the work a step builds on is done by steps listed before it. */
  lemma WorkComesInOrder(kind: Kind, i: nat, name: StepName)
    requires i < |Steps(kind)| && name in BuildsOn(Steps(kind)[i])
    ensures Before(kind, name, i)
  {
    match kind {
      case RotateCa => CaInOrder(i, name);
      case RotatePasswords => PasswordsInOrder(i, name);
      case Replace => ReplaceInOrder(i, name);
      case Delete => DeleteInOrder(i, name);
      case Create => CreateInOrder(i, name);
      case PromoteReplica => PromoteInOrder(i, name);
      case CreateReplica => CreateReplicaInOrder(i, name);
      case _ => OthersInOrder(kind, i, name);
    }
  }

  /** What a step publishes is waited for before anything more is, and before the operation ends. */
  lemma WhatIsPublishedIsWaitedFor(kind: Kind, i: nat) returns (j: nat)
    requires i < |Steps(kind)| && Publishes(Steps(kind)[i])
    ensures WaitsFor(kind, i, j)
  {
    if kind.Replace? {
      assert Steps(Replace)[5] == WaitApplied && i == 2;
      j := 5;
    } else if kind.CreateReplica? {
      assert Steps(CreateReplica)[2] == WaitApplied && i == 0;
      j := 2;
    } else {
      j := i + 1;
      NextWaits(kind, i);
    }
  }

  lemma NextWaits(kind: Kind, i: nat)
    requires !kind.Replace? && !kind.CreateReplica? && i < |Steps(kind)| && Publishes(Steps(kind)[i])
    ensures i + 1 < |Steps(kind)| && Steps(kind)[i + 1] == WaitApplied
  {
  }

  /** The steps an operation is there for. */
  function WorkOf(kind: Kind): set<StepName> {
    match kind
    case Create => {Place, FirstBackup, OpenAccess}
    case Update => {WaitApplied}
    case RollingUpdate => {RollingRestart, NewGeneration}
    case ReplicationMode => {SetReplicationMode}
    case Delete => {RemoveReplica, Retract, Finalize}
    case Restart => {RollingRestart}
    case Switchover => {DoSwitchover}
    case Backup => {TakeBackup}
    case Replace => {ReplaceMember, RetractOld, DropOld}
    case RotateCa => {CaTrustBoth, CaIssue, CaTrustNew}
    case RotatePasswords => {PasswordsOffer, PasswordsAlter, PasswordsCommit}
    case Resize => {ResizeRestart}
    case Upgrade => {UpgradeCheck, RollingRestart, WaitVersion}
    case CreateReplica => {PlaceReplica, AddReplica}
    case PromoteReplica => {DetachReplica, Promote, FirstBackup, OpenAccess}
  }

  lemma ListedAt(kind: Kind, name: StepName, i: nat)
    requires i < |Steps(kind)| && Steps(kind)[i] == name
    ensures Before(kind, name, |Steps(kind)|)
  {
  }

  lemma MakingIsListed(kind: Kind, name: StepName)
    requires name in WorkOf(kind) && (kind.Create? || kind.CreateReplica? || kind.PromoteReplica?)
    ensures Before(kind, name, |Steps(kind)|)
  {
    match kind {
      case Create => ListedAt(kind, name, if name.Place? then 0 else if name.FirstBackup? then 2 else 3);
      case CreateReplica => ListedAt(kind, name, if name.PlaceReplica? then 0 else 1);
      case PromoteReplica => ListedAt(kind, name, if name.DetachReplica? then 0 else if name.Promote? then 1 else if name.FirstBackup? then 3 else 4);
    }
  }

  lemma RotationsAreListed(kind: Kind, name: StepName)
    requires name in WorkOf(kind) && (kind.RotateCa? || kind.RotatePasswords?)
    ensures Before(kind, name, |Steps(kind)|)
  {
    match kind {
      case RotateCa => ListedAt(kind, name, if name.CaTrustBoth? then 0 else if name.CaIssue? then 2 else 4);
      case RotatePasswords => ListedAt(kind, name, if name.PasswordsOffer? then 0 else if name.PasswordsAlter? then 2 else 3);
    }
  }

  lemma RemovalIsListed(kind: Kind, name: StepName)
    requires name in WorkOf(kind) && (kind.Replace? || kind.Delete?)
    ensures Before(kind, name, |Steps(kind)|)
  {
    match kind {
      case Replace => ListedAt(kind, name, if name.ReplaceMember? then 1 else if name.RetractOld? then 2 else 4);
      case Delete => ListedAt(kind, name, if name.RemoveReplica? then 0 else if name.Retract? then 1 else 3);
    }
  }

  lemma ChangesAreListed(kind: Kind, name: StepName)
    requires name in WorkOf(kind) && (kind.Upgrade? || kind.RollingUpdate? || kind.ReplicationMode? || kind.Resize?)
    ensures Before(kind, name, |Steps(kind)|)
  {
    match kind {
      case Upgrade => ListedAt(kind, name, if name.UpgradeCheck? then 0 else if name.RollingRestart? then 1 else 2);
      case RollingUpdate => ListedAt(kind, name, if name.RollingRestart? then 1 else 2);
      case ReplicationMode | Resize => ListedAt(kind, name, 1);
    }
  }

  /** Each step an operation is there for is one of its steps. */
  lemma WorkIsListed(kind: Kind, name: StepName)
    requires name in WorkOf(kind)
    ensures Before(kind, name, |Steps(kind)|)
  {
    match kind {
      case Create | CreateReplica | PromoteReplica => MakingIsListed(kind, name);
      case RotateCa | RotatePasswords => RotationsAreListed(kind, name);
      case Replace | Delete => RemovalIsListed(kind, name);
      case Upgrade | RollingUpdate | ReplicationMode | Resize => ChangesAreListed(kind, name);
      case Update | Restart | Switchover | Backup => ListedAt(kind, name, 0);
    }
  }

  /** Besides that work, an operation only waits and closes. */
  lemma NothingElseIsListed(kind: Kind, i: nat)
    requires i < |Steps(kind)|
    ensures var name := Steps(kind)[i];
            || name in WorkOf(kind) || Closes(name)
            || name.WaitApplied? || name.WaitPeers? || name.WaitRemoved? || name.WaitOldRemoved?
  {
  }

  /** The last step of every operation, and no other, closes it. */
  lemma OnlyTheLastCloses(kind: Kind, i: nat)
    requires i < |Steps(kind)|
    ensures Closes(Steps(kind)[i]) <==> i == |Steps(kind)| - 1
  {
  }
}
