/** What every transaction over core's deployment tables keeps. */
module LedgerInvariant {
  import opened Wrappers
  import opened DeploymentContracts
  import opened Ledger

  predicate Switches(k: Kind) { k.Deploy? || k.Rollback? || k.Retire? }

  predicate Keyed(c: Core) {
    && (forall id | id in c.operations ::
          c.operations[id].operation.id == id && ValidOperation(c.operations[id].operation))
    && (forall id | id in c.operations ::
          c.operations[id].operation.requestId in c.requests &&
          c.requests[c.operations[id].operation.requestId] == id)
  }

  /** The unique indexes say exactly which rows are in flight. */
  predicate Indexed(c: Core) {
    && (c.active.Some? ==> c.active.value in c.operations)
    && (c.blocked.Some? ==> c.blocked.value in c.operations)
    && (forall id | id in c.operations :: Active(c.operations[id].state) <==> c.active == Some(id))
    && (forall id | id in c.operations :: c.operations[id].state == Ended(Blocked) <==> c.blocked == Some(id))
  }

  /** While an operation is blocked the only active one is a recovery naming it. */
  predicate Exclusive(c: Core)
    requires Indexed(c)
  {
    && (c.active.Some? && c.operations[c.active.value].operation.kind.Recover? ==>
          c.blocked.Some? && c.blocked == c.operations[c.active.value].operation.recovers)
    && (c.active.Some? && c.blocked.Some? ==> c.operations[c.active.value].operation.kind.Recover?)
    && (c.active.Some? && c.operations[c.active.value].state.Switching? ==>
          !c.operations[c.active.value].operation.kind.Rehearse?)
    && (c.blocked.Some? ==> Switches(c.operations[c.blocked.value].operation.kind))
  }

  /** Every operation in flight was approved against the latest generation. */
  predicate InFlightCurrent(c: Core)
    requires Indexed(c)
  {
    && (c.active.Some? ==> c.operations[c.active.value].operation.selection.generation == |c.history|)
    && (c.blocked.Some? ==> c.operations[c.blocked.value].operation.selection.generation == |c.history|)
    && (c.active.Some? && c.operations[c.active.value].operation.kind.Retire? ==>
          Current(c.history).Some? &&
          c.operations[c.active.value].operation.selection.registration
            == Sha256(Current(c.history).value.registration))
    && (c.active.Some? && c.operations[c.active.value].operation.kind.Rollback? ==>
          InstalledAt(c.history, 1).Some? &&
          c.operations[c.active.value].operation.selection.manifest
            == InstalledAt(c.history, 1).value.selection.manifest)
  }

  /** Generations run 1..n and a retirement directly follows the install it stores. */
  predicate HistoryShape(h: seq<Snapshot>) {
    forall i | 0 <= i < |h| ::
      && h[i].generation == i + 1
      && Sha256(h[i].registration) == h[i].selection.registration
      && (h[i].Retired? ==> FollowsInstall(h, i))
  }

  predicate FollowsInstall(h: seq<Snapshot>, i: nat)
    requires i < |h| && h[i].Retired?
  {
    && i > 0 && h[i - 1].Installed? && h[i].lastInstalled == h[i - 1]
    && h[i].registration == h[i - 1].registration
  }

  /** Every row is backed by a succeeded operation with the same selection. */
  predicate HistoryBacked(c: Core) {
    forall i | 0 <= i < |c.history| ::
      && c.history[i].operationId in c.operations
      && c.history[i].selection.generation == i
      && BackedBy(c.history[i], c.operations[c.history[i].operationId])
  }

  predicate BackedBy(s: Snapshot, row: Row) {
    && row.state == Ended(Succeeded)
    && row.operation.selection == s.selection
    && (if s.Installed? then row.operation.kind.Deploy? || row.operation.kind.Rollback?
        else row.operation.kind.Retire?)
  }

  predicate RegistrationFollows(c: Core) {
    |c.history| > 0 ==> c.registration == c.history[|c.history| - 1].registration
  }

  /** Every deploy was approved after a passed rehearsal of the same selection. */
  predicate DeploysRehearsed(c: Core) {
    forall id | id in c.operations && c.operations[id].operation.kind.Deploy? ::
      RehearsedAs(c.operations, c.operations[id].operation)
  }

  predicate CoreInv(c: Core) {
    && Keyed(c)
    && Indexed(c)
    && Exclusive(c)
    && InFlightCurrent(c)
    && HistoryShape(c.history)
    && HistoryBacked(c)
    && RegistrationFollows(c)
    && DeploysRehearsed(c)
  }

  /** The conjuncts about what is in flight, which most steps need without the rest. */
  predicate InFlight(c: Core) {
    Keyed(c) && Indexed(c) && Exclusive(c) && InFlightCurrent(c) && HistoryShape(c.history)
  }

  lemma InFlightFacts(c: Core)
    requires CoreInv(c)
    ensures InFlight(c)
  {
  }

  /** Operations are only ever added, and an operation's document never changes. */
  predicate OperationsKept(before: map<Id, Row>, after: map<Id, Row>) {
    forall id | id in before :: id in after && after[id].operation == before[id].operation
  }

  /** What core relies on root for: a receipt answers its own operation, only a switch
      ends recovered or blocked, and a recovery adopts only what was approved alike. */
  predicate ReceiptFits(operations: map<Id, Row>, o: Operation, r: Receipt) {
    && r.operationId == o.id && r.selection == o.selection
    && (r.outcome.Recovered? || r.outcome.Blocked? ==> Switches(o.kind))
    && (o.kind.Recover? && r.installed.Some? ==>
          && o.recovers.Some? && o.recovers.value in operations
          && operations[o.recovers.value].operation.selection == o.selection
          && !operations[o.recovers.value].operation.kind.Retire?)
  }

  // ---------------------------------------------------------------- request

  lemma SelectionBindsState(c: Core, manifest: Digest, preview: Id, kind: Kind, f: Facts)
    requires SelectionFor(c, manifest, preview, kind, f).Ok?
    ensures var s := SelectionFor(c, manifest, preview, kind, f).value;
            && s.manifest == manifest && s.preview == preview && s.policy == f.policy
            && s.generation == GenerationOf(Latest(c.history))
            && (kind.Retire? ==> Current(c.history).Some? &&
                                 s.registration == Sha256(Current(c.history).value.registration))
  {
  }

  lemma InsertKeepsCoreInv(c: Core, o: Operation)
    requires CoreInv(c) && c.active.None? && o.id !in c.operations && o.requestId !in c.requests
    requires ValidOperation(o) && o.selection.generation == |c.history|
    requires o.kind.Recover? ==> c.blocked.Some? && c.blocked == o.recovers
    requires !o.kind.Recover? ==> c.blocked.None?
    requires o.kind.Retire? ==> Current(c.history).Some? &&
                                o.selection.registration == Sha256(Current(c.history).value.registration)
    requires o.kind.Rollback? ==> InstalledAt(c.history, 1).Some? &&
                                  o.selection.manifest == InstalledAt(c.history, 1).value.selection.manifest
    requires o.kind.Deploy? ==> RehearsedAs(Insert(c, o).operations, o)
    ensures CoreInv(Insert(c, o))
  {
    InsertKeepsRehearsals(c, o);
  }

  lemma InsertKeepsRehearsals(c: Core, o: Operation)
    requires DeploysRehearsed(c) && o.id !in c.operations
    requires o.kind.Deploy? ==> RehearsedAs(Insert(c, o).operations, o)
    ensures DeploysRehearsed(Insert(c, o))
  {
  }

  lemma NewOperationForm(c: Core, r: Request, newId: Id, f: Facts)
    requires Keyed(c) && Indexed(c) && NewOperation(c, r, newId, f).Ok?
    ensures var o := NewOperation(c, r, newId, f).value;
            && o.id == newId && o.requestId == r.requestId && o.kind == r.kind && ValidOperation(o)
            && (r.kind.Recover? ==> o.recovers == c.blocked && c.blocked.Some?)
            && o.selection.generation == GenerationOf(Latest(c.history))
            && (r.kind.Retire? ==>
                  && Current(c.history).Some?
                  && o.selection.registration == Sha256(Current(c.history).value.registration))
  {
    var preview := if r.kind.Recover? then Some(BlockedOperation(c).value.selection.preview) else r.preview;
    SelectionBindsState(c, r.manifest, preview.value, r.kind, f);
  }

  lemma RequestForm(c: Core, r: Request, newId: Id, f: Facts)
    requires RequestOperation(c, r, newId, f).Ok?
    ensures var (c', o) := RequestOperation(c, r, newId, f).value;
            if r.requestId in c.requests && c.requests[r.requestId] in c.operations
            then c' == c && o == c.operations[c.requests[r.requestId]].operation
            else
              && c' == Insert(c, o) && NewOperation(c, r, newId, f) == Ok(o)
              && newId !in c.operations && r.requestId !in c.requests
              && c.active.None? && (!r.kind.Recover? ==> c.blocked.None?)
              && ReadAuthority(c', newId, f).Ok?
  {
  }

  lemma AuthorityForm(c: Core, id: Id, f: Facts)
    requires ReadAuthority(c, id, f).Ok?
    ensures id in c.operations && Active(c.operations[id].state)
    ensures var o := c.operations[id].operation; var a := ReadAuthority(c, id, f).value;
            && a.operation == o && a.previous == Latest(c.history)
            && ApprovedRegistration(c, o.kind) == Ok(a.registration)
            && o.selection.registration == Sha256(a.registration)
            && o.selection.generation == GenerationOf(Latest(c.history))
            && (o.kind.Recover? ==> c.blocked == o.recovers)
            && (o.kind.Deploy? ==> RehearsedAs(c.operations, o))
            && (o.kind.Rollback? ==>
                  && InstalledAt(c.history, 1).Some?
                  && InstalledAt(c.history, 1).value.selection.manifest == o.selection.manifest)
  {
  }

  /** A request either repeats an earlier one or adds one queued operation. */
  lemma RequestKeepsCoreInv(c: Core, r: Request, newId: Id, f: Facts)
    requires CoreInv(c) && RequestOperation(c, r, newId, f).Ok?
    ensures var (c', o) := RequestOperation(c, r, newId, f).value;
            && CoreInv(c')
            && (c' == c || (newId !in c.operations && c' == Insert(c, o) && o.id == newId &&
                            o.requestId == r.requestId && c.active.None? &&
                            (c.blocked.Some? ==> o.kind.Recover?)))
  {
    RequestForm(c, r, newId, f);
    var (c', o) := RequestOperation(c, r, newId, f).value;
    if c' != c {
      NewOperationForm(c, r, newId, f);
      AuthorityForm(c', newId, f);
      LatestGeneration(c);
      InsertKeepsCoreInv(c, o);
    }
  }

  lemma LatestGeneration(c: Core)
    requires HistoryShape(c.history)
    ensures GenerationOf(Latest(c.history)) == |c.history|
  {
  }

  // ---------------------------------------------------------------- acknowledge

  lemma AcknowledgeKeepsCoreInv(c: Core, id: Id)
    requires CoreInv(c)
    ensures CoreInv(Acknowledge(c, id))
  {
  }

  // ---------------------------------------------------------------- consume

  /** The active operation ends and nothing else changes. */
  lemma SettleKeepsCoreInv(c: Core, id: Id, e: Receipt)
    requires CoreInv(c) && c.active == Some(id)
    requires e.outcome.Blocked? ==> c.blocked.None? && Switches(c.operations[id].operation.kind)
    ensures CoreInv(SetState(c, id, Ended(e.outcome), Some(e)))
  {
    hide HistoryShape, Current, InstalledAt;
  }

  /** The blocked operation is resolved while nothing is active. */
  lemma ResolveKeepsCoreInv(c: Core, b: Id, outcome: Outcome)
    requires CoreInv(c) && c.active.None? && c.blocked == Some(b) && !outcome.Blocked?
    ensures CoreInv(SetState(c, b, Ended(outcome), c.operations[b].receipt))
  {
  }

  /** A generation is appended while nothing is in flight. */
  lemma AppendKeepsCoreInv(c: Core, s: Snapshot)
    requires CoreInv(c) && c.active.None? && c.blocked.None?
    requires s.generation == |c.history| + 1 && s.selection.generation == |c.history|
    requires Sha256(s.registration) == s.selection.registration
    requires s.operationId in c.operations && BackedBy(s, c.operations[s.operationId])
    requires s.Retired? ==> Current(c.history) == Some(s.lastInstalled) &&
                            s.registration == s.lastInstalled.registration
    ensures CoreInv(AppendAccepted(c, s))
  {
    var c' := AppendAccepted(c, s);
    assert HistoryShape(c'.history);
    assert HistoryBacked(c');
  }

  /** The row `Consume` appends, None when the receipt accepts nothing. */
  function ConsumedRow(c: Core, o: Operation, e: Receipt): Option<Snapshot> {
    if e.outcome == Succeeded && AcceptedRow(c, o, e).Ok? then AcceptedRow(c, o, e).value else None
  }

  /** `Consume` settles the operation, then resolves the block, then appends: the three
      writes commute, and in this order each of them keeps the invariant. */
  function Consumed(c: Core, id: Id, e: Receipt): Core
    requires id in c.operations
    requires c.blocked.Some? ==> c.blocked.value in c.operations
  {
    var o := c.operations[id].operation;
    var row := ConsumedRow(c, o, e);
    var settled := SetState(c, id, Ended(e.outcome), Some(e));
    var resolved := if o.kind.Recover? && e.outcome == Succeeded && c.blocked.Some?
                    then SetState(settled, c.blocked.value, Ended(ResolvedOutcome(c.history, e)),
                                  c.operations[c.blocked.value].receipt)
                    else settled;
    if row.None? then resolved else AppendAccepted(resolved, row.value)
  }

  lemma ResolvedOutcomeIgnoresAdopted(c: Core, o: Operation, e: Receipt, s: Snapshot)
    requires o.kind.Recover? && AcceptedRow(c, o, e) == Ok(Some(s))
    ensures ResolvedOutcome(c.history, e) == ResolvedOutcome(c.history + [s], e)
  {
  }

  /** What an accepting `Consume` checked, and the tables it leaves. */
  lemma ConsumeForm(c: Core, id: Id, r: Receipt, f: Facts)
    requires Indexed(c) && Exclusive(c) && Keyed(c) && id in c.operations && Active(c.operations[id].state)
    requires Consume(c, id, r, f).Ok?
    ensures var o := c.operations[id].operation; var e := EffectiveReceipt(c, o, r, f);
            && c.active == Some(id)
            && Consume(c, id, r, f).value == Consumed(c, id, e)
            && (e.outcome == Succeeded ==> AcceptedRow(c, o, e).Ok?)
            && (r.outcome == Succeeded && !o.kind.Rehearse? ==> c.operations[id].state.Switching?)
            && (o.kind.Recover? ==> c.blocked.Some? && c.blocked == o.recovers && c.blocked.value != id)
  {
    var o := c.operations[id].operation;
    var e := EffectiveReceipt(c, o, r, f);
    var appended := Appended(c, o, e).value;
    var resolved := ResolveBlocked(appended, o, e).value;
    assert c.active == Some(id);
    if o.kind.Recover? && e.outcome == Succeeded {
      var b := c.blocked.value;
      if ConsumedRow(c, o, e).Some? {
        ResolvedOutcomeIgnoresAdopted(c, o, e, ConsumedRow(c, o, e).value);
      }
      var x := c.operations[b].(state := Ended(ResolvedOutcome(c.history, e)));
      var y := c.operations[id].(state := Ended(e.outcome), receipt := Some(e));
      assert c.operations[b := x][id := y] == c.operations[id := y][b := x];
    }
  }

  lemma BlockedOutcomeIsFree(c: Core, id: Id, r: Receipt, f: Facts)
    requires CoreInv(c) && id in c.operations && Active(c.operations[id].state)
    requires ReceiptFits(c.operations, c.operations[id].operation, r)
    ensures var e := EffectiveReceipt(c, c.operations[id].operation, r, f);
            e.outcome.Blocked? ==> c.blocked.None? && Switches(c.operations[id].operation.kind)
  {
  }

  /** Consuming any fitting receipt keeps the invariant. */
  lemma ConsumeKeepsCoreInv(c: Core, id: Id, r: Receipt, f: Facts)
    requires CoreInv(c) && id in c.operations && Active(c.operations[id].state)
    requires ReceiptFits(c.operations, c.operations[id].operation, r) && Consume(c, id, r, f).Ok?
    ensures CoreInv(Consume(c, id, r, f).value)
  {
    ConsumeForm(c, id, r, f);
    BlockedOutcomeIsFree(c, id, r, f);
    var o := c.operations[id].operation;
    var e := EffectiveReceipt(c, o, r, f);
    SettleKeepsCoreInv(c, id, e);
    var settled := SetState(c, id, Ended(e.outcome), Some(e));
    var resolved := settled;
    if o.kind.Recover? && e.outcome == Succeeded {
      ResolveKeepsCoreInv(settled, c.blocked.value, ResolvedOutcome(c.history, e));
      resolved := SetState(settled, c.blocked.value, Ended(ResolvedOutcome(c.history, e)),
                           c.operations[c.blocked.value].receipt);
    }
    var row := ConsumedRow(c, o, e);
    if row.Some? {
      AcceptedRowIsNext(c, o, e, row.value);
      AppendKeepsCoreInv(resolved, row.value);
    }
  }

  /** An accepted row is the next generation, of an approved operation. */
  lemma AcceptedRowIsNext(c: Core, o: Operation, r: Receipt, s: Snapshot)
    requires CoreInv(c) && c.active == Some(o.id) && c.operations[o.id].operation == o
    requires ReceiptFits(c.operations, o, r)
    requires r.outcome == Succeeded && AcceptedRow(c, o, r) == Ok(Some(s))
    ensures s.generation == |c.history| + 1 && s.selection.generation == |c.history|
    ensures s.selection == o.selection && Sha256(s.registration) == s.selection.registration
    ensures s.operationId == (if o.kind.Recover? then o.recovers.value else o.id)
    ensures s.operationId in c.operations && c.operations[s.operationId].operation.selection == s.selection
    ensures s.Installed? <==> !o.kind.Retire?
    ensures s.Retired? ==> Current(c.history) == Some(s.lastInstalled) &&
                           s.registration == s.lastInstalled.registration
  {
  }

  // ---------------------------------------------------------------- registrations

  /** A registration transaction touches neither operations nor history. */
  predicate SameOperations(c: Core, c': Core) {
    && c'.operations == c.operations && c'.active == c.active && c'.blocked == c.blocked
    && c'.requests == c.requests && c'.history == c.history
  }

  lemma RegistrationStepKeepsCoreInv(c: Core, c': Core)
    requires CoreInv(c) && SameOperations(c, c')
    requires c'.registration == c.registration || c.history == []
    ensures CoreInv(c')
  {
  }

  /** Only an application that never ran has its registration replaced. */
  lemma UpdateRegistrationForm(c: Core, proposed: Registration, eligible: bool)
    requires UpdateRegistration(c, proposed, eligible).Ok?
    ensures var c' := UpdateRegistration(c, proposed, eligible).value.0;
            && SameOperations(c, c')
            && (c'.registration == c.registration || c.history == [])
  {
    assert Current(c.history).None? && !IsRetired(c.history) ==> c.history == [];
  }

  lemma UpdateRegistrationKeepsCoreInv(c: Core, proposed: Registration, eligible: bool)
    requires CoreInv(c) && UpdateRegistration(c, proposed, eligible).Ok?
    ensures var c' := UpdateRegistration(c, proposed, eligible).value.0;
            CoreInv(c') && SameOperations(c, c')
  {
    UpdateRegistrationForm(c, proposed, eligible);
    RegistrationStepKeepsCoreInv(c, UpdateRegistration(c, proposed, eligible).value.0);
  }

  lemma ProposeSourceRenameKeepsCoreInv(c: Core, manifest: Digest, repository: nat, imageRepository: nat)
    requires CoreInv(c) && ProposeSourceRename(c, manifest, repository, imageRepository).Ok?
    ensures var c' := ProposeSourceRename(c, manifest, repository, imageRepository).value.0;
            CoreInv(c') && SameOperations(c, c') && c'.registration == c.registration
  {
    RegistrationStepKeepsCoreInv(c, ProposeSourceRename(c, manifest, repository, imageRepository).value.0);
  }

  lemma ProvisionLegacyKeepsCoreInv(c: Core, proposed: Registration, expected: Fingerprint)
    requires CoreInv(c) && ProvisionLegacy(c, proposed, expected).Ok?
    ensures var c' := ProvisionLegacy(c, proposed, expected).value.0;
            CoreInv(c') && SameOperations(c, c')
  {
    RegistrationStepKeepsCoreInv(c, ProvisionLegacy(c, proposed, expected).value.0);
  }

  lemma RestoreLegacyKeepsCoreInv(c: Core, l: Registration, el: Fingerprint, em: Fingerprint)
    requires CoreInv(c) && RestoreUnacceptedLegacy(c, l, el, em).Ok?
    ensures var c' := RestoreUnacceptedLegacy(c, l, el, em).value.0;
            CoreInv(c') && SameOperations(c, c')
  {
    RegistrationStepKeepsCoreInv(c, RestoreUnacceptedLegacy(c, l, el, em).value.0);
  }

  lemma RejectKeepsCoreInv(c: Core, manifest: Digest, shown: Option<Fingerprint>, f: Facts)
    requires CoreInv(c) && Reject(c, manifest, shown, f).Ok?
    ensures CoreInv(Reject(c, manifest, shown, f).value) && SameOperations(c, Reject(c, manifest, shown, f).value)
  {
    RegistrationStepKeepsCoreInv(c, Reject(c, manifest, shown, f).value);
  }
}
