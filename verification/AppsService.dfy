/** `AppsService` and the registration transactions (app/app_deployments.py) over core's
    tables, in place: each method is one transaction, rolled back when it refuses, and keeps
    the invariants of the tables. */
module AppsServices {
  import opened Wrappers
  import opened DeploymentContracts
  import opened Ledger
  import opened LedgerInvariant
  import opened LedgerRegistrations

  /** What every transaction over core's tables keeps. */
  predicate Consistent(c: Core) { CoreInv(c) && Bound(c) }

  lemma RequestKept(c: Core, r: Request, newId: Id, f: Facts)
    requires Consistent(c) && RequestOperation(c, r, newId, f).Ok?
    ensures Consistent(RequestOperation(c, r, newId, f).value.0)
  {
    hide CoreInv, Bound, RequestOperation;
    RequestKeepsCoreInv(c, r, newId, f);
    RequestKeepsBound(c, r, newId, f);
  }

  lemma AcknowledgeKept(c: Core, id: Id)
    requires Consistent(c)
    ensures Consistent(Acknowledge(c, id))
  {
    hide CoreInv, Bound, Acknowledge;
    AcknowledgeKeepsCoreInv(c, id);
    AcknowledgeKeepsBound(c, id);
  }

  /** A receipt that answers its own operation, as root's receipts do. */
  predicate Answers(c: Core, id: Id, r: Receipt) {
    id in c.operations ==> ReceiptFits(c.operations, c.operations[id].operation, r)
  }

  lemma ConsumeKept(c: Core, id: Id, r: Receipt, f: Facts)
    requires Consistent(c) && Answers(c, id, r) && Consume(c, id, r, f).Ok?
    ensures Consistent(Consume(c, id, r, f).value)
  {
    hide CoreInv, Bound;
    if id in c.operations && Active(c.operations[id].state) {
      ConsumeKeepsCoreInv(c, id, r, f);
      ConsumeKeepsBound(c, id, r, f);
    }
  }

  lemma ReconcileKept(early: Core, earlyFacts: Facts, c: Core, id: Id, r: Receipt, f: Facts)
    requires Consistent(c) && Answers(c, id, r) && ReconcileFrom(early, earlyFacts, c, id, r, f).Ok?
    ensures Consistent(ReconcileFrom(early, earlyFacts, c, id, r, f).value)
  {
    hide Consistent, Answers, Consume, ReceiptChecked;
    if Consume(c, id, r, f).Ok? {
      ConsumeKept(c, id, r, f);
    }
  }

  /** Consuming changes the tables exactly if the operation was still in flight. */
  lemma ConsumingChanges(c: Core, id: Id, r: Receipt, f: Facts)
    requires id in c.operations && Consume(c, id, r, f).Ok?
    ensures Active(c.operations[id].state) <==> Consume(c, id, r, f).value != c
  {
    if Active(c.operations[id].state) {
      var c' := Consume(c, id, r, f).value;
      assert id in c'.operations && !Active(c'.operations[id].state);
    }
  }

  lemma AnswersAcknowledged(c: Core, id: Id, r: Receipt)
    ensures Answers(c, id, r) <==> Answers(Acknowledge(c, id), id, r)
  {
  }

  lemma UpdateKept(c: Core, proposed: Registration, eligible: bool)
    requires Consistent(c) && UpdateRegistration(c, proposed, eligible).Ok?
    ensures Consistent(UpdateRegistration(c, proposed, eligible).value.0)
  {
    hide CoreInv, Bound, UpdateRegistration;
    UpdateRegistrationKeepsCoreInv(c, proposed, eligible);
    UpdateKeepsBound(c, proposed, eligible);
  }

  lemma RenameKept(c: Core, manifest: Digest, repository: nat, imageRepository: nat)
    requires Consistent(c) && ProposeSourceRename(c, manifest, repository, imageRepository).Ok?
    ensures Consistent(ProposeSourceRename(c, manifest, repository, imageRepository).value.0)
  {
    hide CoreInv, Bound, ProposeSourceRename;
    ProposeSourceRenameKeepsCoreInv(c, manifest, repository, imageRepository);
    RenameKeepsBound(c, manifest, repository, imageRepository);
  }

  lemma CutoverKept(c: Core, r: Registration, x: Fingerprint, y: Fingerprint)
    requires Consistent(c)
    ensures ProvisionLegacy(c, r, x).Ok? ==> Consistent(ProvisionLegacy(c, r, x).value.0)
    ensures RestoreUnacceptedLegacy(c, r, x, y).Ok? ==> Consistent(RestoreUnacceptedLegacy(c, r, x, y).value.0)
  {
    hide CoreInv, Bound, ProvisionLegacy, RestoreUnacceptedLegacy;
    CutoverKeepsBound(c, r, x, y);
    if ProvisionLegacy(c, r, x).Ok? { ProvisionLegacyKeepsCoreInv(c, r, x); }
    if RestoreUnacceptedLegacy(c, r, x, y).Ok? { RestoreLegacyKeepsCoreInv(c, r, x, y); }
  }

  lemma RejectKept(c: Core, manifest: Digest, shown: Option<Fingerprint>, f: Facts)
    requires Consistent(c) && Reject(c, manifest, shown, f).Ok?
    ensures Consistent(Reject(c, manifest, shown, f).value)
  {
    hide CoreInv, Bound, Reject;
    RejectKeepsCoreInv(c, manifest, shown, f);
    RejectKeepsBound(c, manifest, shown, f);
  }

  class AppsService {
    var registration: Registration
    var operations: map<Id, Row>
    var active: Option<Id>
    var blocked: Option<Id>
    var requestIds: map<Id, Id>
    var history: seq<Snapshot>
    var proposals: seq<Proposal>
    var rejections: set<Digest>

    /** The request files in the spool. */
    var requests: set<Id>

    function State(): Core
      reads this
    {
      Core(registration, operations, active, blocked, requestIds, history, proposals, rejections)
    }

    ghost predicate Valid()
      reads this
    {
      Consistent(State())
    }

    constructor (initial: Registration)
      ensures Valid()
      ensures State() == Core(initial, map[], None, None, map[], [], [], {}) && requests == {}
    {
      registration, operations, active, blocked := initial, map[], None, None;
      requestIds, history, proposals, rejections, requests := map[], [], [], {}, {};
    }

    /** One UPDATE of a row's state, with the unique indexes. */
    method UpdateRow(id: Id, state: State, receipt: Option<Receipt>)
      requires id in operations
      modifies this`operations, this`active, this`blocked
      ensures State() == SetState(old(State()), id, state, receipt)
    {
      operations := operations[id := operations[id].(state := state, receipt := receipt)];
      if Active(state) {
        active := Some(id);
      } else if active == Some(id) {
        active := None;
      }
      if state == Ended(Blocked) {
        blocked := Some(id);
      } else if blocked == Some(id) {
        blocked := None;
      }
    }

    /** `request`: replay an earlier request, or record a new operation and read its authority
        back before committing. */
    method RequestApproval(r: Request, newId: Id, f: Facts) returns (result: Result<Operation>)
      modifies this`operations, this`active, this`requestIds
      ensures match RequestOperation(old(State()), r, newId, f)
              case Ok((c', o)) => State() == c' && result == Ok(o)
              case Err(e) => State() == old(State()) && result == Err(e)
      ensures old(Valid()) ==> Valid()
    {
      hide Consistent;
      ghost var c := State();
      if Valid() && RequestOperation(c, r, newId, f).Ok? {
        RequestKept(c, r, newId, f);
      }
      hide SelectionFor, SameRequest, ShownChange;
      if r.kind.Retire? && !r.retireAdvertised {
        return Err(RuntimeLacksRetire);
      }
      if r.requestId in requestIds && requestIds[r.requestId] in operations {
        var prior := operations[requestIds[r.requestId]].operation;
        if !SameRequest(State(), prior, r, f) {
          return Err(RequestIdUsed);
        }
        if !f.administratorCurrent {
          return Err(AdministratorChanged);
        }
        return Ok(prior);
      }
      var approved := NewOperation(State(), r, newId, f);
      if approved.Err? {
        return Err(approved.error);
      }
      if active.Some? || (!r.kind.Recover? && blocked.Some?) {
        return Err(OperationPending);
      }
      if newId in operations || r.requestId in requestIds {
        return Err(UniqueConstraint);
      }
      var o := approved.value;
      var before := (operations, active, requestIds);
      operations := operations[o.id := Row(o, Queued, None)];
      active := Some(o.id);
      requestIds := requestIds[o.requestId := o.id];
      var authority := ReadAuthority(State(), newId, f);
      if authority.Err? {
        operations, active, requestIds := before.0, before.1, before.2;
        return Err(authority.error);
      }
      return Ok(o);
    }

    /** The switch intent moves a queued operation to switching. */
    method ObserveSwitch(id: Id)
      modifies this`operations, this`active, this`blocked
      ensures State() == Acknowledge(old(State()), id)
      ensures old(Valid()) ==> Valid()
    {
      hide Consistent;
      if Valid() {
        AcknowledgeKept(State(), id);
      }
      if id in operations && operations[id].state.Queued? && !operations[id].operation.kind.Rehearse? {
        UpdateRow(id, Switching, operations[id].receipt);
      }
    }

    /** Append what a succeeded receipt accepted; the registration row follows an install. */
    method AppendRow(o: Operation, e: Receipt) returns (result: Result<()>)
      modifies this`registration, this`history
      ensures match Appended(old(State()), o, e)
              case Ok(c') => State() == c' && result.Ok?
              case Err(error) => State() == old(State()) && result == Err(error)
    {
      if e.outcome != Succeeded {
        return Ok(());
      }
      var row := AcceptedRow(State(), o, e);
      if row.Err? {
        return Err(row.error);
      }
      if row.value.Some? {
        if !InsertAllowed(history, row.value.value) {
          return Err(UniqueConstraint);
        }
        history := history + [row.value.value];
        if row.value.value.Installed? && registration != row.value.value.registration {
          registration := row.value.value.registration;
        }
      }
      return Ok(());
    }

    /** A recovery must still name the blocked operation, and settles it if it succeeded. */
    method SettleBlocked(o: Operation, e: Receipt) returns (result: Result<()>)
      modifies this`operations, this`active, this`blocked
      ensures match ResolveBlocked(old(State()), o, e)
              case Ok(c') => State() == c' && result.Ok?
              case Err(error) => State() == old(State()) && result == Err(error)
    {
      if !o.kind.Recover? {
        return Ok(());
      }
      if blocked.None? || blocked != o.recovers || blocked.value !in operations {
        return Err(RecoveryTargetChanged);
      }
      if e.outcome == Succeeded {
        var b := blocked.value;
        UpdateRow(b, Ended(ResolvedOutcome(history, e)), operations[b].receipt);
      }
      return Ok(());
    }

    /** The transaction that consumes a receipt. */
    method ConsumeReceipt(id: Id, r: Receipt, f: Facts) returns (result: Result<()>)
      modifies this`registration, this`operations, this`active, this`blocked, this`history
      ensures match Consume(old(State()), id, r, f)
              case Ok(c') => State() == c' && result.Ok?
              case Err(e) => State() == old(State()) && result == Err(e)
      ensures old(Valid()) && Answers(old(State()), id, r) ==> Valid()
    {
      hide Consistent, Answers, Consume;
      if Valid() && Answers(State(), id, r) && Consume(State(), id, r, f).Ok? {
        ConsumeKept(State(), id, r, f);
      }
      result := WriteOutcome(id, r, f);
    }

    /** All its writes, or a rollback to what it found. */
    method WriteOutcome(id: Id, r: Receipt, f: Facts) returns (result: Result<()>)
      modifies this`registration, this`operations, this`active, this`blocked, this`history
      ensures match Consume(old(State()), id, r, f)
              case Ok(c') => State() == c' && result.Ok?
              case Err(e) => State() == old(State()) && result == Err(e)
    {
      hide EffectiveReceipt, RehearsalPassed, AcceptedRow, InsertAllowed, ResolvedOutcome;
      if id !in operations || !Active(operations[id].state) {
        return Ok(());
      }
      var o := operations[id].operation;
      if r.operationId != id || r.selection != o.selection {
        return Err(ReceiptMismatch);
      }
      if r.outcome == Succeeded && !o.kind.Rehearse? && !operations[id].state.Switching? {
        return Err(NotAdmitted);
      }
      var e := EffectiveReceipt(State(), o, r, f);
      var before := (registration, operations, active, blocked, history);
      result := AppendRow(o, e);
      if result.Ok? {
        result := SettleBlocked(o, e);
      }
      if result.Ok? && e.outcome == Succeeded && o.kind.Rehearse? && !RehearsalPassed(e) {
        result := Err(RehearsalIncomplete);
      }
      if result.Ok? && e.outcome == Blocked && blocked.Some? {
        result := Err(UniqueConstraint);
      }
      if result.Err? {
        registration, operations, active, blocked, history := before.0, before.1, before.2, before.3, before.4;
      } else {
        UpdateRow(id, Ended(e.outcome), Some(e));
      }
    }

    /** `reconcile_operation`: note a switch intent, publish the request of an operation
        without a receipt, or consume the receipt and remove the request. `early` and
        `earlyFacts` are what its reading transaction saw. */
    method ReconcileOperation(id: Id, switchSeen: bool, receipt: Option<Receipt>, early: Core, earlyFacts: Facts,
                              f: Facts)
      returns (result: Result<()>)
      requires id in operations
      modifies this`registration, this`operations, this`active, this`blocked, this`history, this`requests
      ensures var c := old(State()); var seen := if switchSeen then Acknowledge(c, id) else c;
              if switchSeen && c.operations[id].operation.kind.Rehearse? then
                result.Err? && State() == c && requests == old(requests)
              else if receipt.None? then
                result.Ok? && State() == seen && requests == old(requests) + {id}
              else match ReconcileFrom(early, earlyFacts, seen, id, receipt.value, f)
                   case Err(e) => result == Err(e) && State() == seen && requests == old(requests)
                   case Ok(c') =>
                     && result.Ok? && State() == c'
                     && requests == if c' != seen then old(requests) - {id} else old(requests)
      ensures old(Valid()) && (receipt.Some? ==> Answers(old(State()), id, receipt.value)) ==> Valid()
    {
      hide Consume, ReceiptChecked, Consistent, Answers;
      ghost var c := State();
      if switchSeen {
        if operations[id].operation.kind.Rehearse? {
          return Err(ReceiptMismatch);
        }
        ObserveSwitch(id);
      }
      if receipt.None? {
        requests := requests + {id};
        return Ok(());
      }
      AnswersAcknowledged(c, id, receipt.value);
      result := ConsumeChecked(id, receipt.value, early, earlyFacts, f);
    }

    /** From the receipt root published to the end of the writing transaction. */
    method ConsumeChecked(id: Id, r: Receipt, early: Core, earlyFacts: Facts, f: Facts) returns (result: Result<()>)
      requires id in operations
      modifies this`registration, this`operations, this`active, this`blocked, this`history, this`requests
      ensures match ReconcileFrom(early, earlyFacts, old(State()), id, r, f)
              case Err(e) => result == Err(e) && State() == old(State()) && requests == old(requests)
              case Ok(c') =>
                && result.Ok? && State() == c'
                && requests == if c' != old(State()) then old(requests) - {id} else old(requests)
      ensures old(Valid()) && Answers(old(State()), id, r) ==> Valid()
    {
      hide Consume, ReceiptChecked, Consistent, Answers;
      var o := operations[id].operation;
      if r.operationId != id || r.selection != o.selection {
        return Err(ReceiptMismatch);
      }
      if r.outcome == Succeeded && !(id in early.operations && Active(early.operations[id].state)) {
        return Ok(());
      }
      var checked := ReceiptChecked(early, o, r, earlyFacts);
      if checked.Err? {
        return Err(checked.error);
      }
      var settles := Active(operations[id].state);
      if Consume(State(), id, r, f).Ok? {
        ConsumingChanges(State(), id, r, f);
      }
      result := ConsumeReceipt(id, r, f);
      if settles && result.Ok? {
        requests := requests - {id};
      }
    }

    /** `update_registration` */
    method Update(proposed: Registration, eligible: bool) returns (result: Result<Change>)
      modifies this`registration, this`proposals
      ensures match UpdateRegistration(old(State()), proposed, eligible)
              case Ok((c', change)) => State() == c' && result == Ok(change)
              case Err(e) => State() == old(State()) && result == Err(e)
      ensures old(Valid()) ==> Valid()
    {
      hide Consistent;
      ghost var c := State();
      if Valid() && UpdateRegistration(c, proposed, eligible).Ok? {
        UpdateKept(c, proposed, eligible);
      }
      if !Managed(registration) {
        return Err(NotManaged);
      }
      if proposed.route != registration.route || proposed.installation != registration.installation {
        return Err(ReprovisioningRequired);
      }
      if IsRetired(history) {
        return Err(ApplicationRetired);
      }
      var merged := proposed.(settings := registration.settings + proposed.settings);
      var current := Current(history);
      if current.None? {
        registration := merged;
        return Ok(Updated);
      }
      if !SameIdentity(merged, current.value.registration) {
        return Err(IdentityChange);
      }
      if active.Some? || blocked.Some? {
        return Err(OperationPending);
      }
      if !eligible {
        return Err(ReleaseNotEligible);
      }
      var change := PendingChange(State());
      if merged == (if change.Some? then change.value.1 else current.value.registration) {
        return Ok(Unchanged);
      }
      proposals := proposals + [Proposal(current.value.generation, merged, false)];
      return Ok(if merged != current.value.registration then Suggested else Withdrawn);
    }

    /** `propose_source_rename` */
    method ProposeRename(manifest: Digest, repository: nat, imageRepository: nat) returns (result: Result<Change>)
      modifies this`proposals
      ensures match ProposeSourceRename(old(State()), manifest, repository, imageRepository)
              case Ok((c', change)) => State() == c' && result == Ok(change)
              case Err(e) => State() == old(State()) && result == Err(e)
      ensures old(Valid()) ==> Valid()
    {
      hide Consistent;
      ghost var c := State();
      if Valid() && ProposeSourceRename(c, manifest, repository, imageRepository).Ok? {
        RenameKept(c, manifest, repository, imageRepository);
      }
      if !Managed(registration) {
        return Err(NotManaged);
      }
      if IsRetired(history) {
        return Err(ApplicationRetired);
      }
      var current := Current(history);
      if current.None? {
        return Err(NotInstalled);
      }
      if current.value.selection.manifest != manifest {
        return Err(ReleaseChanged);
      }
      if active.Some? || blocked.Some? {
        return Err(OperationPending);
      }
      var source := current.value.registration.source;
      if !source.Published? || source.repository == repository {
        return Err(SourceAlreadyNamed);
      }
      var change := PendingChange(State());
      var base := if change.Some? then change.value.1 else current.value.registration;
      var renamed := base.(source := Published(repository, imageRepository));
      if renamed == base {
        return Ok(Unchanged);
      }
      proposals := proposals + [Proposal(current.value.generation, renamed, false)];
      return Ok(Suggested);
    }

    /** `provision_legacy` */
    method Provision(proposed: Registration, expected: Fingerprint) returns (result: Result<Change>)
      modifies this`registration
      ensures match ProvisionLegacy(old(State()), proposed, expected)
              case Ok((c', change)) => State() == c' && result == Ok(change)
              case Err(e) => State() == old(State()) && result == Err(e)
      ensures old(Valid()) ==> Valid()
    {
      hide Consistent;
      if Valid() {
        CutoverKept(State(), proposed, expected, expected);
      }
      if !Managed(proposed) {
        return Err(ManagedDefinitionRequired);
      }
      if active.Some? || blocked.Some? {
        return Err(OperationPending);
      }
      if history != [] {
        return Err(HistoryRefusesCutover);
      }
      if registration == proposed {
        return Ok(Unchanged);
      }
      if !CutoverPair(registration, proposed) {
        return Err(CutoverRefused);
      }
      if Sha256(registration) != expected {
        return Err(LegacyFingerprintMismatch);
      }
      registration := proposed;
      return Ok(Updated);
    }

    /** `restore_unaccepted_legacy` */
    method RestoreLegacy(legacy: Registration, expectedLegacy: Fingerprint, expectedManaged: Fingerprint)
      returns (result: Result<Change>)
      modifies this`registration
      ensures match RestoreUnacceptedLegacy(old(State()), legacy, expectedLegacy, expectedManaged)
              case Ok((c', change)) => State() == c' && result == Ok(change)
              case Err(e) => State() == old(State()) && result == Err(e)
      ensures old(Valid()) ==> Valid()
    {
      hide Consistent;
      if Valid() {
        CutoverKept(State(), legacy, expectedLegacy, expectedManaged);
      }
      if !Legacy(legacy) {
        return Err(LegacyDefinitionRequired);
      }
      if Sha256(legacy) != expectedLegacy {
        return Err(LegacyFingerprintMismatch);
      }
      if active.Some? || blocked.Some? {
        return Err(OperationPending);
      }
      if history != [] {
        return Err(HistoryRefusesCutover);
      }
      if registration == legacy {
        return Ok(Unchanged);
      }
      if !CutoverPair(legacy, registration) {
        return Err(CutoverRefused);
      }
      if Sha256(registration) != expectedManaged {
        return Err(ManagedFingerprintMismatch);
      }
      registration := legacy;
      return Ok(Updated);
    }

    /** `reject` */
    method RejectOffer(manifest: Digest, shown: Option<Fingerprint>, f: Facts) returns (result: Result<()>)
      modifies this`proposals, this`rejections
      ensures match Reject(old(State()), manifest, shown, f)
              case Ok(c') => State() == c' && result.Ok?
              case Err(e) => State() == old(State()) && result == Err(e)
      ensures old(Valid()) ==> Valid()
    {
      hide Consistent;
      ghost var c := State();
      if Valid() && Reject(c, manifest, shown, f).Ok? {
        RejectKept(c, manifest, shown, f);
      }
      if !f.administratorCurrent {
        return Err(AdministratorChanged);
      }
      if !Managed(registration) {
        return Err(NotManaged);
      }
      if f.archive.None? {
        return Err(ReleaseNotEligible);
      }
      if active.Some? || blocked.Some? {
        return Err(OperationPending);
      }
      var current := Current(history);
      var change := PendingChange(State());
      if (if change.Some? then Some(Sha256(change.value.1)) else None) != shown {
        return Err(SettingsChangeReplaced);
      }
      if change.Some? {
        var index := change.value.0;
        proposals := proposals[index := proposals[index].(rejected := true)];
      }
      if current.Some? && current.value.selection.manifest == manifest {
        if change.None? {
          return Err(InstalledReleaseNotRejectable);
        }
        return Ok(());
      }
      rejections := rejections + {manifest};
      return Ok(());
    }
  }
}
