/** What no step ever takes back: histories grow, documents and receipts never change, and
    neither generation moves backwards. */
module DeploymentRuns {
  import opened Wrappers
  import opened DeploymentContracts
  import opened Ledger
  import opened LedgerInvariant
  import opened Protocol
  import opened ProtocolInvariant
  import opened ProtocolSteps
  import opened ProtocolCoreSteps

  predicate Final(s: State) { s.Ended? && !s.outcome.Blocked? }

  /** Operations keep their documents, and a final one its state and receipt. */
  predicate RowsLater(before: map<Id, Row>, after: map<Id, Row>) {
    forall id | id in before ::
      id in after && after[id].operation == before[id].operation &&
      (Final(before[id].state) ==> after[id] == before[id])
  }

  predicate RecordsLater(before: map<Id, Receipt>, after: map<Id, Receipt>) {
    forall id | id in before :: id in after && after[id] == before[id]
  }

  predicate CoreLater(c: Core, c': Core) {
    c.history <= c'.history && RowsLater(c.operations, c'.operations)
  }

  predicate Later(s: System, s': System) {
    && CoreLater(s.core, s'.core)
    && RecordsLater(s.root.journal, s'.root.journal)
    && RecordsLater(s.spool.receipts, s'.spool.receipts)
    && GenerationOf(s.root.current) <= GenerationOf(s'.root.current)
    && s.touched <= s'.touched
  }

  lemma ConsumeIsLater(c: Core, id: Id, r: Receipt, f: Facts)
    requires CoreInv(c) && Consume(c, id, r, f).Ok?
    ensures CoreLater(c, Consume(c, id, r, f).value)
  {
    hide Consume, EffectiveReceipt, HistoryShape, HistoryBacked, DeploysRehearsed, RegistrationFollows;
    if id in c.operations && Active(c.operations[id].state) {
      ConsumeForm(c, id, r, f);
    } else {
      SettledConsume(c, id, r, f);
    }
  }

  lemma SettledConsume(c: Core, id: Id, r: Receipt, f: Facts)
    requires id !in c.operations || !Active(c.operations[id].state)
    ensures Consume(c, id, r, f) == Ok(c)
  {
  }

  lemma RequestIsLater(c: Core, r: Request, newId: Id, f: Facts)
    requires CoreInv(c) && RequestOperation(c, r, newId, f).Ok?
    ensures CoreLater(c, RequestOperation(c, r, newId, f).value.0)
  {
    hide CoreInv, RequestOperation;
    RequestKeepsCoreInv(c, r, newId, f);
  }

  lemma ChangeIsLater(c: Core, c': Core)
    requires SameOperations(c, c')
    ensures CoreLater(c, c')
  {
  }

  lemma CoreStepIsLater(s: System, step: CoreStep)
    requires Inv(s)
    ensures CoreLater(s.core, ApplyCore(s, step).core)
  {
    hide CoreInv, RecordsOk, SettledOk, MarkersOk, RequestsOk, AdmittedOk, ConsumedOk, CurrentOk, TruthOk,
         ContainerOk, TouchedOk, RunOk, RowsLater;
    hide RequestOperation, Acknowledge, Consume, UpdateRegistration, ProposeSourceRename, ProvisionLegacy,
         RestoreUnacceptedLegacy, Reject;
    var c := s.core;
    ChangeIsLater(c, c);
    match step
    case DoRequest(r, id, f) =>
      if RequestOperation(c, r, id, f).Ok? { RequestIsLater(c, r, id, f); }
    case DoAcknowledge(id) => AcknowledgeIsLater(c, id);
    case DoPublishRequest(id) =>
    case DoConsume(id, f) =>
      if id in s.spool.receipts && Consume(c, id, s.spool.receipts[id], f).Ok? {
        ConsumeIsLater(c, id, s.spool.receipts[id], f);
      }
    case DoUnlinkRequest(id) =>
    case DoUpdateRegistration(p, e) =>
      if UpdateRegistration(c, p, e).Ok? {
        UpdateRegistrationKeepsCoreInv(c, p, e);
        ChangeIsLater(c, UpdateRegistration(c, p, e).value.0);
      }
    case DoProposeSourceRename(m, r, i) =>
      if ProposeSourceRename(c, m, r, i).Ok? {
        ProposeSourceRenameKeepsCoreInv(c, m, r, i);
        ChangeIsLater(c, ProposeSourceRename(c, m, r, i).value.0);
      }
    case DoProvisionLegacy(p, e) =>
      if ProvisionLegacy(c, p, e).Ok? {
        ProvisionLegacyKeepsCoreInv(c, p, e);
        ChangeIsLater(c, ProvisionLegacy(c, p, e).value.0);
      }
    case DoRestoreLegacy(p, e, em) =>
      if RestoreUnacceptedLegacy(c, p, e, em).Ok? {
        RestoreLegacyKeepsCoreInv(c, p, e, em);
        ChangeIsLater(c, RestoreUnacceptedLegacy(c, p, e, em).value.0);
      }
    case DoReject(m, shown, f) =>
      if Reject(c, m, shown, f).Ok? {
        RejectKeepsCoreInv(c, m, shown, f);
        ChangeIsLater(c, Reject(c, m, shown, f).value);
      }
  }

  lemma AcknowledgeIsLater(c: Core, id: Id)
    ensures CoreLater(c, Acknowledge(c, id))
  {
  }

  /** A core step writes core's tables and request files, and nothing of root's. */
  lemma CoreStepLeavesRoot(s: System, step: CoreStep)
    ensures var s' := ApplyCore(s, step);
            && s'.root == s.root && s'.run == s.run && s'.touched == s.touched
            && s'.spool.receipts == s.spool.receipts && s'.spool.switches == s.spool.switches
  {
    hide RequestOperation, Acknowledge, Consume, UpdateRegistration, ProposeSourceRename, ProvisionLegacy,
         RestoreUnacceptedLegacy, Reject;
  }

  /** A new operation in flight, and nothing else changed but the request index. */
  predicate Requested(c: Core, c': Core, newId: Id) {
    && newId !in c.operations && c.active.None? && c'.active == Some(newId)
    && c'.history == c.history && c'.blocked == c.blocked && OperationsKept(c.operations, c'.operations)
  }

  /** The four ways in which a core step can leave the tables. */
  lemma CoreStepKinds(s: System, step: CoreStep)
    requires CoreInv(s.core)
    ensures var c, c' := s.core, ApplyCore(s, step).core;
            || SameOperations(c, c')
            || (step.DoRequest? && Requested(c, c', step.newId))
            || (step.DoAcknowledge? && c' == Acknowledge(c, step.id))
            || (step.DoConsume? && step.id in s.spool.receipts &&
                Consume(c, step.id, s.spool.receipts[step.id], step.facts) == Ok(c'))
  {
    hide CoreInv, RequestOperation, Acknowledge, Consume, UpdateRegistration, ProposeSourceRename, ProvisionLegacy,
         RestoreUnacceptedLegacy, Reject;
    var c := s.core;
    match step
    case DoRequest(r, id, f) =>
      if RequestOperation(c, r, id, f).Ok? { RequestKeepsCoreInv(c, r, id, f); }
    case DoUpdateRegistration(p, e) =>
      if UpdateRegistration(c, p, e).Ok? { UpdateRegistrationKeepsCoreInv(c, p, e); }
    case DoProposeSourceRename(m, r, i) =>
      if ProposeSourceRename(c, m, r, i).Ok? { ProposeSourceRenameKeepsCoreInv(c, m, r, i); }
    case DoProvisionLegacy(p, e) =>
      if ProvisionLegacy(c, p, e).Ok? { ProvisionLegacyKeepsCoreInv(c, p, e); }
    case DoRestoreLegacy(p, e, em) =>
      if RestoreUnacceptedLegacy(c, p, e, em).Ok? { RestoreLegacyKeepsCoreInv(c, p, e, em); }
    case DoReject(m, shown, f) =>
      if Reject(c, m, shown, f).Ok? { RejectKeepsCoreInv(c, m, shown, f); }
    case _ =>
  }

  lemma RootStepIsLater(s: System, step: RootStep)
    ensures Later(s, ApplyRoot(s, step)) && ApplyRoot(s, step).core == s.core
  {
    hide RootAuthority, ReadInstalledAuthority, Adoptable, Contradicts, ProbePasses;
  }

  lemma HostStepIsLater(s: System, step: HostStep)
    ensures Later(s, ApplyHost(s, step)) && ApplyHost(s, step).core == s.core
  {
    hide Adoptable;
  }

  lemma StepIsLater(s: System, step: Step)
    requires Inv(s)
    ensures Later(s, Apply(s, step))
  {
    hide ApplyCore, ApplyRoot, ApplyHost, Inv, CoreLater;
    match step
    case ByCore(core) =>
      CoreStepIsLater(s, core);
      CoreStepLeavesRoot(s, core);
    case ByRoot(root) => RootStepIsLater(s, root);
    case OnHost(host) => HostStepIsLater(s, host);
  }

  lemma LaterTransitive(a: System, b: System, c: System)
    requires Later(a, b) && Later(b, c)
    ensures Later(a, c)
  {
  }

  lemma {:induction false} ExecutionAppends(s: System, steps: seq<Step>, more: seq<Step>)
    ensures Execution(Execution(s, steps), more) == Execution(s, steps + more)
    decreases |more|
  {
    hide Apply;
    if more == [] {
      assert steps + more == steps;
    } else {
      var k := |more| - 1;
      ExecutionAppends(s, steps, more[..k]);
      assert (steps + more)[..|steps + more| - 1] == steps + more[..k];
    }
  }

  /** Nothing accepted, recorded or settled is ever taken back, whatever happens next. */
  lemma {:induction false} NothingIsTakenBack(registration: Registration, steps: seq<Step>, more: seq<Step>)
    ensures Later(Execution(Start(registration), steps), Execution(Start(registration), steps + more))
    decreases |more|
  {
    hide Apply, Inv;
    if more == [] {
      assert steps + more == steps;
    } else {
      var k := |more| - 1;
      NothingIsTakenBack(registration, steps, more[..k]);
      ReachableInv(registration, steps + more[..k]);
      assert (steps + more)[..|steps + more| - 1] == steps + more[..k];
      StepIsLater(Execution(Start(registration), steps + more[..k]), more[k]);
      LaterTransitive(Execution(Start(registration), steps), Execution(Start(registration), steps + more[..k]),
                      Execution(Start(registration), steps + more));
    }
  }
}
