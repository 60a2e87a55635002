/** Uploads and inputs of app compute, in place: `reserve_input`, the upload loop of
    app/app_api.py, `save_input`, `delete_input` and `reconcile_app_inputs`. */
module InputStores {
  import opened Wrappers
  import opened ComputeInputs

  function Total(chunks: seq<nat>): nat {
    if chunks == [] then 0 else Total(chunks[..|chunks| - 1]) + chunks[|chunks| - 1]
  }

  lemma {:induction false} TotalGrows(chunks: seq<nat>, i: nat)
    requires i <= |chunks|
    ensures Total(chunks[..i]) <= Total(chunks)
    decreases |chunks|
  {
    if i == |chunks| {
      assert chunks[..i] == chunks;
    } else {
      var n := |chunks| - 1;
      TotalGrows(chunks[..n], i);
      assert chunks[..n][..i] == chunks[..i];
    }
  }

  /** What one row of the union contributes, if it is counted. */
  function Counted(s: State, owner: Option<Owner>, id: Id): Option<nat> {
    if id in s.reservations then
      if owner.None? || s.reservations[id] == owner.value then Some(MAX_INPUT_BYTES) else None
    else if id in s.inputs && s.inputs[id].uploaded && !s.inputs[id].deleted then
      if owner.None? || s.inputs[id].owner == owner.value then Some(s.inputs[id].size) else None
    else None
  }

  lemma HeldRows(s: State, owner: Option<Owner>)
    ensures Held(s, owner).Keys <= s.reservations.Keys + s.inputs.Keys
  {
  }

  lemma HeldCounts(s: State, owner: Option<Owner>, id: Id)
    ensures Counted(s, owner, id) == if id in Held(s, owner) then Some(Held(s, owner)[id]) else None
  {
  }

  lemma NothingCounted(held: map<Id, nat>, rest: set<Id>)
    requires held.Keys <= rest
    ensures |held - rest| == 0 && Sum(held - rest) == 0
  {
    assert held - rest == map[];
  }

  lemma OneMoreCounted(held: map<Id, nat>, rest: set<Id>, id: Id)
    requires id in rest
    ensures var m := held - (rest - {id});
            && |m| == |held - rest| + (if id in held then 1 else 0)
            && Sum(m) == Sum(held - rest) + (if id in held then held[id] else 0)
  {
    if id in held {
      SumAdds(held - rest, id, held[id]);
      assert held - (rest - {id}) == (held - rest)[id := held[id]];
    } else {
      assert held - (rest - {id}) == held - rest;
    }
  }

  lemma AllCounted(held: map<Id, nat>, rest: set<Id>)
    requires rest == {}
    ensures held - rest == held
  {
  }

  /** `SELECT count(*), sum(size_bytes)` over reservations and live uploaded inputs. */
  method Usage(s: State, owner: Option<Owner>) returns (count: nat, used: nat)
    ensures count == |Held(s, owner)| && used == Sum(Held(s, owner))
  {
    hide Sum, Held, Counted;
    ghost var held := Held(s, owner);
    HeldRows(s, owner);
    var rest := s.reservations.Keys + s.inputs.Keys;
    count, used := 0, 0;
    NothingCounted(held, rest);
    while rest != {}
      invariant count == |held - rest| && used == Sum(held - rest)
      decreases |rest|
    {
      var id :| id in rest;
      OneMoreCounted(held, rest, id);
      HeldCounts(s, owner, id);
      rest := rest - {id};
      var size := Counted(s, owner, id);
      if size.Some? {
        count, used := count + 1, used + size.value;
      }
    }
    AllCounted(held, rest);
  }

  class InputStore {
    var inputs: map<Id, Input>
    var reservations: map<Id, Owner>
    var uploads: map<Id, Upload>
    var objects: set<Id>
    var starting: bool

    function Now(): State
      reads this
    {
      State(inputs, reservations, uploads, objects, starting)
    }

    constructor ()
      ensures Now() == Run([])
    {
      inputs, reservations, uploads, objects, starting := map[], map[], map[], {}, false;
    }

    /** `reserve_input` */
    method ReserveInput(id: Id, owner: Owner) returns (reserved: bool)
      requires !starting && Fresh(Now(), id)
      modifies this`reservations, this`uploads
      ensures Now() == Reserve(old(Now()), id, owner)
      ensures reserved <==> MayReserve(old(Now()), owner)
    {
      hide Held, Sum;
      var count, used := Usage(Now(), Some(owner));
      var _, total := Usage(Now(), None);
      if count >= MAX_OWNER_UPLOADS || used + MAX_INPUT_BYTES > MAX_OWNER_INPUT_BYTES ||
         total + MAX_INPUT_BYTES > MAX_TOTAL_INPUT_BYTES
      {
        return false;
      }
      reservations := reservations[id := owner];
      uploads := uploads[id := Upload(owner, Waiting, 0)];
      return true;
    }

    /** The upload: received chunk by chunk, saved if it is neither empty nor too large, and
        otherwise removed together with its reservation. */
    method ReceiveInput(id: Id, chunks: seq<nat>) returns (saved: bool)
      requires id in uploads && uploads[id].phase.Waiting? && uploads[id].received == 0
      requires id in reservations && reservations[id] == uploads[id].owner && id !in inputs && id !in objects
      modifies this`inputs, this`reservations, this`uploads, this`objects
      ensures saved <==> 0 < Total(chunks) <= MAX_INPUT_BYTES
      ensures reservations == old(reservations) - {id} && uploads == old(uploads) - {id}
      ensures saved ==> inputs == old(inputs)[id := Input(old(uploads)[id].owner, true, Total(chunks), false)] &&
                        objects == old(objects) + {id}
      ensures !saved ==> inputs == old(inputs) && objects == old(objects)
    {
      var owner := uploads[id].owner;
      objects := objects + {id};
      var size, tooLarge := 0, false;
      var i := 0;
      while i < |chunks| && !tooLarge
        invariant 0 <= i <= |chunks|
        invariant size == Total(chunks[..i])
        invariant tooLarge <==> size > MAX_INPUT_BYTES
        decreases |chunks| - i
      {
        assert chunks[..i + 1][..i] == chunks[..i];
        size := size + chunks[i];
        i := i + 1;
        tooLarge := size > MAX_INPUT_BYTES;
      }
      TotalGrows(chunks, i);
      assert i == |chunks| ==> chunks[..i] == chunks;
      saved := !tooLarge && size > 0;
      if saved {
        inputs := inputs[id := Input(owner, true, size, false)];
      } else {
        objects := objects - {id};
      }
      reservations := reservations - {id};
      uploads := uploads - {id};
    }

    /** `save_input` for a handle on a member's file. */
    method SaveFileHandle(id: Id, owner: Owner, size: nat) returns (saved: bool)
      requires !starting && Fresh(Now(), id)
      modifies this`inputs
      ensures Now() == SaveHandle(old(Now()), id, owner, size)
      ensures saved <==> |Handles(old(Now()), owner)| < MAX_OWNER_HANDLES
    {
      if |Handles(Now(), owner)| >= MAX_OWNER_HANDLES {
        return false;
      }
      inputs := inputs[id := Input(owner, false, size, false)];
      return true;
    }

    /** `delete_input`: the tombstone first, then the file. */
    method DeleteInput(id: Id, owner: Owner) returns (found: bool)
      requires !starting
      modifies this`inputs, this`objects
      ensures found <==> id in old(inputs) && old(inputs)[id].owner == owner
      ensures Now() == if found then Unlink(Delete(old(Now()), id, owner), id) else old(Now())
    {
      if id !in inputs || inputs[id].owner != owner {
        return false;
      }
      inputs := inputs[id := inputs[id].(deleted := true)];
      objects := objects - {id};
      return true;
    }

    /** `reconcile_app_inputs`: files without a live input go, and every reservation. */
    method Reconcile()
      requires starting && uploads == map[]
      modifies this`objects, this`reservations, this`starting
      ensures objects == set id | id in old(objects) && Kept(old(Now()), id)
      ensures reservations == map[] && !starting
    {
      var left := objects;
      while left != {}
        invariant left <= objects <= old(objects)
        invariant forall id | id in old(objects) && id !in left :: id in objects <==> Kept(old(Now()), id)
        decreases |left|
      {
        var id :| id in left;
        left := left - {id};
        if !(id in inputs && inputs[id].uploaded && !inputs[id].deleted) {
          objects := objects - {id};
        }
      }
      reservations := map[];
      starting := false;
    }
  }

  // ---------------------------------------------------------------- the upload as a run

  /** A saved upload is the reserve, receive and save steps of the quota protocol, so the
      quotas proved of every run hold of the store: a saved input fits its reservation. */
  lemma SavedUploadIsSteps(s: State, id: Id, chunks: seq<nat>)
    requires id in s.uploads && s.uploads[id] == Upload(s.uploads[id].owner, Waiting, 0) && id !in s.inputs
    requires id in s.reservations && s.reservations[id] == s.uploads[id].owner
    requires 0 < Total(chunks) <= MAX_INPUT_BYTES
    ensures Save(Received(Open(s, id), id, chunks), id) ==
              s.(inputs := s.inputs[id := Input(s.uploads[id].owner, true, Total(chunks), false)],
                 reservations := s.reservations - {id}, uploads := s.uploads - {id}, objects := s.objects + {id})
  {
    ReceivedAll(Open(s, id), id, chunks);
  }

  function Received(s: State, id: Id, chunks: seq<nat>): State {
    if chunks == [] then s else Receive(Received(s, id, chunks[..|chunks| - 1]), id, chunks[|chunks| - 1])
  }

  lemma {:induction false} ReceivedAll(s: State, id: Id, chunks: seq<nat>)
    requires id in s.uploads && s.uploads[id].phase.Receiving? && s.uploads[id].received == 0
    requires Total(chunks) <= MAX_INPUT_BYTES
    ensures Received(s, id, chunks) == s.(uploads := s.uploads[id := s.uploads[id].(received := Total(chunks))])
    decreases |chunks|
  {
    if chunks == [] {
      assert s.uploads[id := s.uploads[id].(received := 0)] == s.uploads;
    } else {
      TotalGrows(chunks, |chunks| - 1);
      ReceivedAll(s, id, chunks[..|chunks| - 1]);
    }
  }
}
