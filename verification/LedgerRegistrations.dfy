/** Every registration core can come to run under is a managed one: a second invariant,
    over the first. */
module LedgerRegistrations {
  import opened Wrappers
  import opened DeploymentContracts
  import opened Ledger
  import opened LedgerInvariant

  /** A proposal is managed, and was made against an accepted generation. */
  predicate ProposalsManaged(proposals: seq<Proposal>, generations: nat) {
    forall p | p in proposals :: Managed(p.registration) && p.baseGeneration <= generations
  }

  predicate ApprovalsManaged(operations: map<Id, Row>) {
    forall id | id in operations :: Managed(operations[id].operation.selection.registration.of)
  }

  /** The generation a blocked rollback or retirement was aimed at is still there. */
  predicate BlockedAimed(c: Core) {
    c.blocked.Some? && c.blocked.value in c.operations ==>
      Aimed(c.history, c.operations[c.blocked.value].operation.kind)
  }

  predicate Aimed(h: seq<Snapshot>, kind: Kind) {
    && (kind.Retire? ==> Current(h).Some?)
    && (kind.Rollback? ==> InstalledAt(h, 1).Some?)
  }

  predicate Bound(c: Core) {
    ProposalsManaged(c.proposals, |c.history|) && ApprovalsManaged(c.operations) && BlockedAimed(c)
  }

  /** Accepted generations carry registrations their operations approved. */
  lemma HistoryManaged(c: Core)
    requires HistoryShape(c.history) && HistoryBacked(c) && ApprovalsManaged(c.operations)
    ensures forall i | 0 <= i < |c.history| :: Managed(c.history[i].registration)
  {
    forall i | 0 <= i < |c.history| ensures Managed(c.history[i].registration) {
      assert BackedBy(c.history[i], c.operations[c.history[i].operationId]);
    }
  }

  /** Once an app has a history, core's registration reads never refuse it as unmanaged. */
  lemma InstalledIsManaged(c: Core)
    requires CoreInv(c) && Bound(c) && |c.history| > 0
    ensures RegistrationFor(c) == Ok(c.registration) && c.registration == c.history[|c.history| - 1].registration
  {
    HistoryManaged(c);
  }

  lemma PendingIsManaged(c: Core)
    requires ProposalsManaged(c.proposals, |c.history|) && PendingChange(c).Some?
    ensures Managed(PendingChange(c).value.1)
  {
    assert c.proposals[PendingChange(c).value.0] in c.proposals;
  }

  lemma ApprovedIsManaged(c: Core, kind: Kind)
    requires CoreInv(c) && Bound(c) && ApprovedRegistration(c, kind).Ok?
    ensures Managed(ApprovedRegistration(c, kind).value)
  {
    HistoryManaged(c);
    if PendingChange(c).Some? {
      PendingIsManaged(c);
    }
  }

  // ---------------------------------------------------------------- kept by every transaction

  lemma RequestKeepsBound(c: Core, r: Request, newId: Id, f: Facts)
    requires CoreInv(c) && Bound(c) && RequestOperation(c, r, newId, f).Ok?
    ensures Bound(RequestOperation(c, r, newId, f).value.0)
  {
    hide CoreInv, RequestOperation, ReadAuthority, SelectionFor, NewOperation;
    RequestKeepsCoreInv(c, r, newId, f);
    RequestForm(c, r, newId, f);
    var (c', o) := RequestOperation(c, r, newId, f).value;
    if c' != c {
      SelectionIsManaged(c, r, newId, f);
    }
  }

  lemma SelectionIsManaged(c: Core, r: Request, newId: Id, f: Facts)
    requires CoreInv(c) && Bound(c) && NewOperation(c, r, newId, f).Ok?
    ensures Managed(NewOperation(c, r, newId, f).value.selection.registration.of)
  {
    hide CoreInv, Bound;
    ApprovedIsManaged(c, r.kind);
  }

  lemma ConsumeKeepsBound(c: Core, id: Id, r: Receipt, f: Facts)
    requires CoreInv(c) && Bound(c) && id in c.operations && Active(c.operations[id].state)
    requires Consume(c, id, r, f).Ok?
    ensures Bound(Consume(c, id, r, f).value)
  {
    hide Consume, EffectiveReceipt, HistoryShape, HistoryBacked, DeploysRehearsed, RegistrationFollows;
    ConsumeForm(c, id, r, f);
  }

  lemma UpdateKeepsBound(c: Core, proposed: Registration, eligible: bool)
    requires CoreInv(c) && Bound(c) && UpdateRegistration(c, proposed, eligible).Ok?
    ensures Bound(UpdateRegistration(c, proposed, eligible).value.0)
  {
    HistoryManaged(c);
  }

  lemma RenameKeepsBound(c: Core, manifest: Digest, repository: nat, imageRepository: nat)
    requires CoreInv(c) && Bound(c) && ProposeSourceRename(c, manifest, repository, imageRepository).Ok?
    ensures Bound(ProposeSourceRename(c, manifest, repository, imageRepository).value.0)
  {
    HistoryManaged(c);
    if PendingChange(c).Some? {
      PendingIsManaged(c);
    }
  }

  lemma RejectKeepsBound(c: Core, manifest: Digest, shown: Option<Fingerprint>, f: Facts)
    requires Bound(c) && Reject(c, manifest, shown, f).Ok?
    ensures Bound(Reject(c, manifest, shown, f).value)
  {
  }

  lemma AcknowledgeKeepsBound(c: Core, id: Id)
    requires Bound(c)
    ensures Bound(Acknowledge(c, id))
  {
  }

  lemma CutoverKeepsBound(c: Core, r: Registration, x: Fingerprint, y: Fingerprint)
    requires Bound(c)
    ensures ProvisionLegacy(c, r, x).Ok? ==> Bound(ProvisionLegacy(c, r, x).value.0)
    ensures RestoreUnacceptedLegacy(c, r, x, y).Ok? ==> Bound(RestoreUnacceptedLegacy(c, r, x, y).value.0)
  {
  }

  // ---------------------------------------------------------------- reading and consuming

  /** The only reasons left to refuse a settled, running installation its boot authority. */
  function BootRefusal(f: Facts): Option<Refusal> {
    if f.credential.None? then Some(CredentialRevoked)
    else if f.archive.None? then Some(ReleaseNotEligible)
    else None
  }

  /** The registration and operation checks of the boot authority never refuse. */
  lemma BootAuthorityNeverContradicts(c: Core, f: Facts)
    requires CoreInv(c) && Bound(c) && c.blocked.None? && Current(c.history).Some?
    requires c.active.Some? ==> c.operations[c.active.value].state.Queued?
    ensures ReadInstalledAuthority(c, f) ==
              if BootRefusal(f).Some? then Err(BootRefusal(f).value) else Ok(Current(c.history).value)
  {
    InstalledIsManaged(c);
    assert BackedBy(c.history[|c.history| - 1], c.operations[c.history[|c.history| - 1].operationId]);
  }

  /** The release behind an operation in flight is still named by a registration, unless
      the app was never installed and its registration was replaced by an unmanaged one. */
  lemma ReleaseStillNamed(c: Core, id: Id)
    requires CoreInv(c) && Bound(c) && c.active == Some(id)
    ensures ReleaseRegistration(c, c.operations[id].operation.kind).Ok? <==> Managed(c.registration)
  {
    hide HistoryBacked, RegistrationFollows, DeploysRehearsed;
  }

  // ---------------------------------------------------------------- proposed changes

  lemma {:induction false} NewestIsLast(proposals: seq<Proposal>, p: Proposal)
    ensures NewestProposal(proposals + [p], p.baseGeneration) == Some(|proposals|)
  {
    assert (proposals + [p])[|proposals|] == p;
  }

  lemma {:induction false} NoProposalYet(proposals: seq<Proposal>, base: nat)
    requires forall p | p in proposals :: p.baseGeneration != base
    ensures NewestProposal(proposals, base).None?
    decreases |proposals|
  {
    if proposals != [] {
      var last := |proposals| - 1;
      assert proposals[last] in proposals;
      NoProposalYet(proposals[..last], base);
    }
  }

  /** What `update_registration` reports is what a deploy would carry from then on: an
      uninstalled app is updated in place, an installed one only ever proposes, a withdrawal
      leaves nothing pending, and settings no operator named are kept. */
  lemma UpdateReportsWhatIsPending(c: Core, proposed: Registration, eligible: bool)
    requires CoreInv(c) && UpdateRegistration(c, proposed, eligible).Ok?
    ensures var (c', change) := UpdateRegistration(c, proposed, eligible).value;
            var merged := proposed.(settings := c.registration.settings + proposed.settings);
            && (Current(c.history).None? ==> change.Updated? && c'.registration == merged && c'.proposals == c.proposals)
            && (Current(c.history).Some? ==> !change.Updated? && c'.registration == c.registration)
            && (change.Suggested? ==> PendingChange(c').Some? && PendingChange(c').value.1 == merged)
            && (change.Withdrawn? ==> PendingChange(c').None? && PendingChange(c).Some?)
            && (change.Unchanged? ==> c' == c)
  {
    var (c', change) := UpdateRegistration(c, proposed, eligible).value;
    var merged := proposed.(settings := c.registration.settings + proposed.settings);
    if change.Suggested? || change.Withdrawn? {
      NewestIsLast(c.proposals, Proposal(c.history[|c.history| - 1].generation, merged, false));
    }
  }

  /** A rejected settings change is no longer offered, and rejecting changes nothing installed. */
  lemma RejectedChangeIsGone(c: Core, manifest: Digest, shown: Option<Fingerprint>, f: Facts)
    requires Reject(c, manifest, shown, f).Ok?
    ensures var c' := Reject(c, manifest, shown, f).value;
            && PendingChange(c').None?
            && c'.history == c.history && c'.registration == c.registration && c'.operations == c.operations
            && (manifest in c'.rejections ||
                (Current(c.history).Some? && Current(c.history).value.selection.manifest == manifest))
            && (PendingChange(c).Some? ==> shown == Some(Sha256(PendingChange(c).value.1)))
  {
    var change := PendingChange(c);
    if change.Some? {
      SameNewest(c.proposals, change.value.0, Current(c.history).value.generation);
    }
  }

  lemma {:induction false} SameNewest(proposals: seq<Proposal>, index: nat, base: nat)
    requires index < |proposals|
    ensures NewestProposal(proposals[index := proposals[index].(rejected := true)], base) == NewestProposal(proposals, base)
    decreases |proposals|
  {
    var last := |proposals| - 1;
    var marked := proposals[index := proposals[index].(rejected := true)];
    if index < last {
      SameNewest(proposals[..last], index, base);
      assert marked[..last] == proposals[..last][index := proposals[index].(rejected := true)];
    } else {
      assert marked[..last] == proposals[..last];
    }
  }

  /** A proposal never outlives the generation it was made against: once another generation
      is accepted nothing is pending until something new is proposed. */
  lemma AcceptedGenerationStartsClean(c: Core, s: Snapshot)
    requires Bound(c) && s.generation == |c.history| + 1
    ensures PendingChange(AppendAccepted(c, s)).None?
  {
    NoProposalYet(c.proposals, s.generation);
  }

  // ---------------------------------------------------------------- what an approval stands for

  /** A rehearsal or deploy approves the change the administrator was shown: the registration
      it binds is the pending one exactly if that one was named, and otherwise the present one. */
  lemma ApprovesOnlyWhatWasShown(c: Core, r: Request, newId: Id, f: Facts)
    requires CoreInv(c) && NewOperation(c, r, newId, f).Ok? && (r.kind.Rehearse? || r.kind.Deploy?)
    ensures var bound := NewOperation(c, r, newId, f).value.selection.registration;
            && bound == Sha256(if PendingChange(c).Some? then PendingChange(c).value.1 else c.registration)
            && r.shown == (if PendingChange(c).Some? then Some(bound) else None)
  {
    hide HistoryBacked, DeploysRehearsed, Keyed, Indexed, Exclusive, InFlightCurrent, NewestProposal;
    if |c.history| > 0 {
      assert c.history[|c.history| - 1].generation == |c.history|;
    }
  }

  /** A rehearsal is recorded as succeeded only if its whole authority still held. */
  lemma RehearsalsSucceedUnderAuthority(c: Core, id: Id, r: Receipt, f: Facts)
    requires CoreInv(c) && id in c.operations && Active(c.operations[id].state)
    requires c.operations[id].operation.kind.Rehearse? && Consume(c, id, r, f).Ok?
    ensures var state := Consume(c, id, r, f).value.operations[id].state;
            && (state == Ended(Succeeded) ==> ReadAuthority(c, id, f).Ok? && RehearsalPassed(r))
            && (r.outcome.Succeeded? && ReadAuthority(c, id, f).Err? ==> state == Ended(Failed))
  {
    hide ReadAuthority, HistoryShape, HistoryBacked, DeploysRehearsed, RegistrationFollows;
    ConsumeForm(c, id, r, f);
  }

  /** What a succeeded recovery makes of the operation it names: succeeded exactly if its
      generation was adopted, recovered exactly if an earlier one runs, else failed. */
  lemma RecoveryDecidesTheBlocked(c: Core, id: Id, r: Receipt, f: Facts)
    requires CoreInv(c) && id in c.operations && Active(c.operations[id].state)
    requires c.operations[id].operation.kind.Recover? && r.outcome.Succeeded? && Consume(c, id, r, f).Ok?
    ensures var c' := Consume(c, id, r, f).value;
            && c.blocked.Some? && c.blocked == c.operations[id].operation.recovers && c.blocked.value in c'.operations
            && var fate := c'.operations[c.blocked.value].state; var b := c.blocked.value;
            && c'.blocked.None?
            && (fate == Ended(Succeeded) <==>
                  c'.history != c.history && c'.history[|c'.history| - 1].operationId == b)
            && (fate == Ended(Recovered) <==> c'.history == c.history && Current(c.history).Some?)
            && (fate == Ended(Failed) <==> c'.history == c.history && Current(c.history).None?)
  {
    hide ReadAuthority, HistoryShape, HistoryBacked, DeploysRehearsed, RegistrationFollows, Current, Consume;
    ConsumeForm(c, id, r, f);
    EffectiveUnlessRehearsal(c, c.operations[id].operation, r, f);
  }

  lemma EffectiveUnlessRehearsal(c: Core, o: Operation, r: Receipt, f: Facts)
    requires !o.kind.Rehearse?
    ensures EffectiveReceipt(c, o, r, f) == r
  {
  }
}
