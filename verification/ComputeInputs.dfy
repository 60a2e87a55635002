/** Uploaded inputs and file handles of app compute (app/app_compute.py, app/app_api.py):
    quota reservations that become retained inputs, whatever order uploads, deletions and
    restarts come in. */
module ComputeInputs {
  import opened Wrappers
  import opened Sets

  type Id = nat

  const MAX_INPUT_BYTES := 20 * 1024 * 1024
  const MAX_OWNER_INPUT_BYTES := 200 * 1024 * 1024
  const MAX_TOTAL_INPUT_BYTES := 1024 * 1024 * 1024
  const MAX_OWNER_UPLOADS := 100
  const MAX_OWNER_HANDLES := 100

  datatype Owner = Owner(app: nat, user: nat)

  /** A row of app_inputs: an uploaded object, or a handle on a member's file. */
  datatype Input = Input(owner: Owner, uploaded: bool, size: nat, deleted: bool)

  datatype Phase = Waiting | Receiving | Aborted

  /** An upload in progress: the bytes received so far, once its file exists. */
  datatype Upload = Upload(owner: Owner, phase: Phase, received: nat)

  /** `objects` are the files in the inputs directory, named after reservation or input.
      After a crash nothing is served until `reconcile_app_inputs` committed. */
  datatype State = State(
    inputs: map<Id, Input>, reservations: map<Id, Owner>, uploads: map<Id, Upload>,
    objects: set<Id>, starting: bool)

  // ---------------------------------------------------------------- what the quotas count

  predicate Retained(s: State, id: Id) {
    id in s.reservations || (id in s.inputs && s.inputs[id].uploaded && !s.inputs[id].deleted)
  }

  function OwnerOf(s: State, id: Id): Owner
    requires Retained(s, id)
  {
    if id in s.reservations then s.reservations[id] else s.inputs[id].owner
  }

  function SizeOf(s: State, id: Id): nat
    requires Retained(s, id)
  {
    if id in s.reservations then MAX_INPUT_BYTES else s.inputs[id].size
  }

  /** The union of reservations and live uploaded inputs, of one owner or of all. */
  function Held(s: State, owner: Option<Owner>): map<Id, nat> {
    map id | id in s.reservations.Keys + s.inputs.Keys && Retained(s, id) &&
             (owner.Some? ==> OwnerOf(s, id) == owner.value) :: SizeOf(s, id)
  }

  function Handles(s: State, owner: Owner): set<Id> {
    set id | id in s.inputs && s.inputs[id].owner == owner && !s.inputs[id].uploaded && !s.inputs[id].deleted
  }

  ghost function Sum(m: map<Id, nat>): nat
    decreases |m|
  {
    if m == map[] then 0
    else
      var k :| k in m;
      m[k] + Sum(m - {k})
  }

  lemma {:induction false} SumRemoves(m: map<Id, nat>, k: Id)
    requires k in m
    ensures Sum(m) == m[k] + Sum(m - {k})
    decreases |m|
  {
    var x :| x in m && Sum(m) == m[x] + Sum(m - {x});
    if x != k {
      SumRemoves(m - {x}, k);
      SumRemoves(m - {k}, x);
      assert m - {x} - {k} == m - {k} - {x};
    }
  }

  lemma {:induction false} SumMonotone(m: map<Id, nat>, n: map<Id, nat>)
    requires forall k | k in m :: k in n && m[k] <= n[k]
    ensures Sum(m) <= Sum(n) && |m| <= |n|
    decreases |m|
  {
    if m != map[] {
      var k :| k in m;
      SumRemoves(m, k);
      SumRemoves(n, k);
      SumMonotone(m - {k}, n - {k});
    }
  }

  lemma SumAdds(m: map<Id, nat>, k: Id, size: nat)
    requires k !in m
    ensures Sum(m[k := size]) == Sum(m) + size && |m[k := size]| == |m| + 1
  {
    SumRemoves(m[k := size], k);
    assert m[k := size] - {k} == m;
  }

  ghost predicate WithinQuota(s: State, owner: Owner) {
    && |Held(s, Some(owner))| <= MAX_OWNER_UPLOADS
    && Sum(Held(s, Some(owner))) <= MAX_OWNER_INPUT_BYTES
    && |Handles(s, owner)| <= MAX_OWNER_HANDLES
  }

  ghost predicate QuotasOk(s: State) {
    && (forall owner :: WithinQuota(s, owner))
    && Sum(Held(s, None)) <= MAX_TOTAL_INPUT_BYTES
  }

  // ---------------------------------------------------------------- steps

  /** `reserve_input` admits an upload of the largest size. Identifiers are fresh. */
  ghost predicate MayReserve(s: State, owner: Owner) {
    && |Held(s, Some(owner))| < MAX_OWNER_UPLOADS
    && Sum(Held(s, Some(owner))) + MAX_INPUT_BYTES <= MAX_OWNER_INPUT_BYTES
    && Sum(Held(s, None)) + MAX_INPUT_BYTES <= MAX_TOTAL_INPUT_BYTES
  }

  predicate Fresh(s: State, id: Id) { id !in s.inputs && id !in s.reservations && id !in s.uploads && id !in s.objects }

  ghost function Reserve(s: State, id: Id, owner: Owner): State {
    if s.starting || !Fresh(s, id) || !MayReserve(s, owner) then s
    else s.(reservations := s.reservations[id := owner], uploads := s.uploads[id := Upload(owner, Waiting, 0)])
  }

  function Open(s: State, id: Id): State {
    if id in s.uploads && s.uploads[id].phase.Waiting?
    then s.(uploads := s.uploads[id := s.uploads[id].(phase := Receiving)], objects := s.objects + {id}) else s
  }

  /** One chunk: the loop refuses the upload as soon as it exceeds the limit. */
  function Receive(s: State, id: Id, bytes: nat): State {
    if id !in s.uploads || !s.uploads[id].phase.Receiving? || s.uploads[id].received + bytes > MAX_INPUT_BYTES then s
    else s.(uploads := s.uploads[id := s.uploads[id].(received := s.uploads[id].received + bytes)])
  }

  /** `save_input` for an uploaded object: the reservation is consumed for the input. */
  function Save(s: State, id: Id): State {
    if id !in s.uploads || !s.uploads[id].phase.Receiving? || s.uploads[id].received == 0 || id in s.inputs then s
    else if id !in s.reservations || s.reservations[id] != s.uploads[id].owner then s
    else s.(reservations := s.reservations - {id}, uploads := s.uploads - {id},
            inputs := s.inputs[id := Input(s.uploads[id].owner, true, s.uploads[id].received, false)])
  }

  /** An upload that is not retained: its file goes, then its reservation. */
  function AbortFile(s: State, id: Id): State {
    if id in s.uploads
    then s.(uploads := s.uploads[id := s.uploads[id].(phase := Aborted)], objects := s.objects - {id}) else s
  }

  function Discard(s: State, id: Id): State {
    if id in s.uploads && s.uploads[id].phase.Aborted?
    then s.(reservations := s.reservations - {id}, uploads := s.uploads - {id}) else s
  }

  /** `save_input` for a file handle. */
  function SaveHandle(s: State, id: Id, owner: Owner, size: nat): State {
    if s.starting || !Fresh(s, id) || |Handles(s, owner)| >= MAX_OWNER_HANDLES then s
    else s.(inputs := s.inputs[id := Input(owner, false, size, false)])
  }

  /** `delete_input` writes a tombstone, and only then removes the file. */
  function Delete(s: State, id: Id, owner: Owner): State {
    if s.starting || id !in s.inputs || s.inputs[id].owner != owner then s
    else s.(inputs := s.inputs[id := s.inputs[id].(deleted := true)])
  }

  function Unlink(s: State, id: Id): State {
    if id in s.inputs && s.inputs[id].deleted then s.(objects := s.objects - {id}) else s
  }

  function Crash(s: State): State { s.(uploads := map[], starting := true) }

  predicate Kept(s: State, id: Id) { id in s.inputs && s.inputs[id].uploaded && !s.inputs[id].deleted }

  /** `reconcile_app_inputs` removes files no live input names, then the reservations. */
  function ReconcileFile(s: State, id: Id): State {
    if s.starting && !Kept(s, id) then s.(objects := s.objects - {id}) else s
  }

  predicate Swept(s: State) { forall id | id in s.objects :: Kept(s, id) }

  function ReconcileCommit(s: State): State {
    if s.starting && Swept(s) then s.(reservations := map[], starting := false) else s
  }

  datatype Step =
    | DoReserve(id: Id, owner: Owner)
    | DoOpen(id: Id)
    | DoReceive(id: Id, bytes: nat)
    | DoSave(id: Id)
    | DoAbortFile(id: Id)
    | DoDiscard(id: Id)
    | DoSaveHandle(id: Id, owner: Owner, size: nat)
    | DoDelete(id: Id, owner: Owner)
    | DoUnlink(id: Id)
    | DoCrash
    | DoReconcileFile(id: Id)
    | DoReconcileCommit

  ghost function Apply(s: State, step: Step): State {
    match step
    case DoReserve(id, owner) => Reserve(s, id, owner)
    case DoOpen(id) => Open(s, id)
    case DoReceive(id, bytes) => Receive(s, id, bytes)
    case DoSave(id) => Save(s, id)
    case DoAbortFile(id) => AbortFile(s, id)
    case DoDiscard(id) => Discard(s, id)
    case DoSaveHandle(id, owner, size) => SaveHandle(s, id, owner, size)
    case DoDelete(id, owner) => Delete(s, id, owner)
    case DoUnlink(id) => Unlink(s, id)
    case DoCrash => Crash(s)
    case DoReconcileFile(id) => ReconcileFile(s, id)
    case DoReconcileCommit => ReconcileCommit(s)
  }

  ghost function Run(steps: seq<Step>): State {
    if steps == [] then State(map[], map[], map[], {}, false)
    else Apply(Run(steps[..|steps| - 1]), steps[|steps| - 1])
  }

  // ---------------------------------------------------------------- the invariant

  predicate UploadsOk(s: State) {
    && (s.starting ==> s.uploads == map[])
    && (forall id | id in s.uploads ::
          && id in s.reservations && s.reservations[id] == s.uploads[id].owner
          && s.uploads[id].received <= MAX_INPUT_BYTES
          && (s.uploads[id].phase.Receiving? <==> id in s.objects))
    && (forall id | id in s.reservations :: id !in s.inputs && (s.starting || id in s.uploads))
  }

  predicate InputsOk(s: State) {
    forall id | id in s.inputs && s.inputs[id].uploaded ::
      && 0 < s.inputs[id].size <= MAX_INPUT_BYTES
      && (!s.inputs[id].deleted ==> id in s.objects)
  }

  predicate ObjectsOk(s: State) {
    forall id | id in s.objects :: id in s.reservations || (id in s.inputs && s.inputs[id].uploaded)
  }

  predicate TablesOk(s: State) { UploadsOk(s) && InputsOk(s) && ObjectsOk(s) }

  ghost predicate Inv(s: State) { TablesOk(s) && QuotasOk(s) }

  lemma EmptyInv()
    ensures Inv(Run([]))
  {
    assert forall owner :: Held(Run([]), Some(owner)) == map[] && Handles(Run([]), owner) == {};
    assert Held(Run([]), None) == map[];
  }

  /** What one owner, or everyone, holds only shrank. */
  ghost predicate HoldsLess(s: State, s': State) {
    && (forall owner, id | id in Held(s', owner) :: id in Held(s, owner) && Held(s', owner)[id] <= Held(s, owner)[id])
    && (forall owner :: Handles(s', owner) <= Handles(s, owner))
  }

  lemma SmallerIsWithinQuota(s: State, s': State)
    requires QuotasOk(s) && HoldsLess(s, s')
    ensures QuotasOk(s')
  {
    forall owner ensures WithinQuota(s', owner) {
      assert WithinQuota(s, owner);
      SumMonotone(Held(s', Some(owner)), Held(s, Some(owner)));
      SmallerSet(Handles(s', owner), Handles(s, owner));
    }
    SumMonotone(Held(s', None), Held(s, None));
  }

  lemma HeldAfterReserve(s: State, id: Id, owner: Owner, o: Option<Owner>)
    requires Fresh(s, id)
    ensures var s' := s.(reservations := s.reservations[id := owner], uploads := s.uploads[id := Upload(owner, Waiting, 0)]);
            && id !in Held(s, o)
            && Held(s', o) == (if o.None? || o.value == owner then Held(s, o)[id := MAX_INPUT_BYTES] else Held(s, o))
  {
  }

  lemma ReserveKeepsQuotas(s: State, id: Id, owner: Owner)
    requires QuotasOk(s)
    ensures QuotasOk(Reserve(s, id, owner))
  {
    hide Sum, Held;
    var s' := Reserve(s, id, owner);
    if s' != s {
      forall o ensures WithinQuota(s', o) {
        assert WithinQuota(s, o);
        assert Handles(s', o) == Handles(s, o);
        HeldAfterReserve(s, id, owner, Some(o));
        SumAdds(Held(s, Some(o)), id, MAX_INPUT_BYTES);
      }
      HeldAfterReserve(s, id, owner, None);
      SumAdds(Held(s, None), id, MAX_INPUT_BYTES);
    }
  }

  lemma SaveHandleKeepsQuotas(s: State, id: Id, owner: Owner, size: nat)
    requires QuotasOk(s)
    ensures QuotasOk(SaveHandle(s, id, owner, size))
  {
    hide Sum, Held, Handles;
    var s' := SaveHandle(s, id, owner, size);
    if s' != s {
      forall o ensures WithinQuota(s', o) {
        assert WithinQuota(s, o);
        HandleHoldsNothing(s, id, owner, size, Some(o));
        HandleIsOwners(s, id, owner, size, o);
      }
      HandleHoldsNothing(s, id, owner, size, None);
    }
  }

  lemma HandleIsOwners(s: State, id: Id, owner: Owner, size: nat, o: Owner)
    requires Fresh(s, id)
    ensures Handles(s.(inputs := s.inputs[id := Input(owner, false, size, false)]), o)
              == if o == owner then Handles(s, o) + {id} else Handles(s, o)
  {
  }

  lemma HandleHoldsNothing(s: State, id: Id, owner: Owner, size: nat, o: Option<Owner>)
    requires Fresh(s, id)
    ensures Held(s.(inputs := s.inputs[id := Input(owner, false, size, false)]), o) == Held(s, o)
  {
  }

  /** A saved input is never larger than the reservation it consumes. */
  lemma SaveHoldsLess(s: State, id: Id)
    requires UploadsOk(s)
    ensures HoldsLess(s, Save(s, id))
  {
  }

  /** Rows only disappear or become tombstones. */
  predicate FewerRows(s: State, s': State) {
    && (forall id | id in s'.reservations :: id in s.reservations && s'.reservations[id] == s.reservations[id])
    && s'.inputs.Keys == s.inputs.Keys
    && (forall id | id in s.inputs :: s'.inputs[id] == s.inputs[id] || s'.inputs[id] == s.inputs[id].(deleted := true))
  }

  lemma FewerHoldLess(s: State, s': State)
    requires UploadsOk(s) && FewerRows(s, s')
    ensures HoldsLess(s, s')
  {
    forall owner, id | id in Held(s', owner) ensures id in Held(s, owner) && Held(s', owner)[id] <= Held(s, owner)[id] {
    }
  }

  lemma OthersHoldLess(s: State, step: Step)
    requires !step.DoReserve? && !step.DoSave? && !step.DoSaveHandle?
    ensures FewerRows(s, Apply(s, step))
  {
  }

  lemma ApplyKeepsQuotas(s: State, step: Step)
    requires UploadsOk(s) && QuotasOk(s)
    ensures QuotasOk(Apply(s, step))
  {
    hide QuotasOk, HoldsLess, UploadsOk, FewerRows, Reserve, Save, SaveHandle;
    match step
    case DoReserve(id, owner) => ReserveKeepsQuotas(s, id, owner);
    case DoSaveHandle(id, owner, size) => SaveHandleKeepsQuotas(s, id, owner, size);
    case DoSave(id) =>
      SaveHoldsLess(s, id);
      SmallerIsWithinQuota(s, Save(s, id));
    case _ =>
      OthersHoldLess(s, step);
      FewerHoldLess(s, Apply(s, step));
      SmallerIsWithinQuota(s, Apply(s, step));
  }

  lemma ReserveKeepsTables(s: State, id: Id, owner: Owner)
    requires TablesOk(s)
    ensures TablesOk(Reserve(s, id, owner))
  {
    hide MayReserve;
  }

  lemma ReceivingKeepsTables(s: State, id: Id, bytes: nat)
    requires TablesOk(s)
    ensures TablesOk(Open(s, id)) && TablesOk(Receive(s, id, bytes)) && TablesOk(AbortFile(s, id))
  {
  }

  lemma EndingKeepsTables(s: State, id: Id)
    requires TablesOk(s)
    ensures TablesOk(Save(s, id)) && TablesOk(Discard(s, id))
  {
  }

  lemma HandlesKeepTables(s: State, id: Id, owner: Owner, size: nat)
    requires TablesOk(s)
    ensures TablesOk(SaveHandle(s, id, owner, size))
  {
    hide Handles;
  }

  lemma DeletingKeepsTables(s: State, id: Id, owner: Owner)
    requires TablesOk(s)
    ensures TablesOk(Delete(s, id, owner)) && TablesOk(Unlink(s, id))
  {
  }

  lemma RestartKeepsTables(s: State, id: Id)
    requires TablesOk(s)
    ensures TablesOk(Crash(s)) && TablesOk(ReconcileFile(s, id)) && TablesOk(ReconcileCommit(s))
  {
  }

  lemma ApplyKeepsTables(s: State, step: Step)
    requires TablesOk(s)
    ensures TablesOk(Apply(s, step))
  {
    hide TablesOk, Reserve, Open, Receive, Save, AbortFile, Discard, SaveHandle, Delete, Unlink, Crash,
         ReconcileFile, ReconcileCommit;
    match step
    case DoReserve(id, owner) => ReserveKeepsTables(s, id, owner);
    case DoOpen(id) => ReceivingKeepsTables(s, id, 0);
    case DoReceive(id, bytes) => ReceivingKeepsTables(s, id, bytes);
    case DoAbortFile(id) => ReceivingKeepsTables(s, id, 0);
    case DoSave(id) => EndingKeepsTables(s, id);
    case DoDiscard(id) => EndingKeepsTables(s, id);
    case DoSaveHandle(id, owner, size) => HandlesKeepTables(s, id, owner, size);
    case DoDelete(id, owner) => DeletingKeepsTables(s, id, owner);
    case DoUnlink(id) => DeletingKeepsTables(s, id, Owner(0, 0));
    case DoCrash => RestartKeepsTables(s, 0);
    case DoReconcileFile(id) => RestartKeepsTables(s, id);
    case DoReconcileCommit => RestartKeepsTables(s, 0);
  }

  lemma ApplyKeepsInv(s: State, step: Step)
    requires Inv(s)
    ensures Inv(Apply(s, step))
  {
    hide Apply, QuotasOk;
    ApplyKeepsTables(s, step);
    ApplyKeepsQuotas(s, step);
  }

  lemma {:induction false} RunInv(steps: seq<Step>)
    ensures Inv(Run(steps))
    decreases |steps|
  {
    hide Inv, Apply;
    if steps == [] {
      EmptyInv();
    } else {
      RunInv(steps[..|steps| - 1]);
      ApplyKeepsInv(Run(steps[..|steps| - 1]), steps[|steps| - 1]);
    }
  }

  // ---------------------------------------------------------------- what follows

  /** In every order of uploads, handles, deletions, crashes and restarts each owner holds at
      most 100 uploads and reservations in 200 MiB, everyone together 1 GiB, and each owner
      at most 100 handles; every live uploaded input is at most 20 MiB and has its file. */
  lemma QuotasHold(steps: seq<Step>, owner: Owner)
    ensures var s := Run(steps);
            && |Held(s, Some(owner))| <= 100 && Sum(Held(s, Some(owner))) <= 209715200
            && Sum(Held(s, None)) <= 1073741824
            && |Handles(s, owner)| <= 100
    ensures forall id | id in Run(steps).inputs && Kept(Run(steps), id) ::
              id in Run(steps).objects && 0 < Run(steps).inputs[id].size <= 20971520
  {
    hide Apply, Sum;
    RunInv(steps);
    assert WithinQuota(Run(steps), owner);
  }

  /** Committed startup reconciliation leaves no reservation, and exactly the files of the
      live uploaded inputs. */
  lemma ReconciliationClears(steps: seq<Step>)
    requires Run(steps).starting && Swept(Run(steps))
    ensures var s := ReconcileCommit(Run(steps));
            && s.reservations == map[] && s.uploads == map[] && !s.starting
            && (forall id :: id in s.objects <==> Kept(s, id))
            && s.inputs == Run(steps).inputs
  {
    hide Apply, QuotasOk;
    RunInv(steps);
  }

  /** With nothing in flight, nothing is reserved and nothing but retained inputs, or files
      a deletion is about to remove, is on disk. */
  lemma IdleHoldsOnlyInputs(steps: seq<Step>)
    requires var s := Run(steps); !s.starting && s.uploads == map[]
    ensures var s := Run(steps);
            && s.reservations == map[]
            && forall id | id in s.objects :: id in s.inputs && s.inputs[id].uploaded
  {
    hide Apply, QuotasOk;
    RunInv(steps);
    var s := Run(steps);
    assert s.reservations.Keys == {};
  }
}
