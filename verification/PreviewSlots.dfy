/** `previews_to_evict` (app/app_deployments.py): which preview installations make room for
    one more in staging, which holds two. */
module PreviewSlots {
  import opened Wrappers
  import opened DeploymentContracts
  import opened Ledger

  const PREVIEW_SLOTS := 2

  type AppId = nat

  datatype PreviewState = Installing | Ready | Failure

  /** A preview attempt that is not retired, in rowid order. */
  datatype Attempt = Attempt(id: Id, app: AppId, release: Digest, state: PreviewState, rejected: bool)

  /** Core's tables of every application, and whether the instance is configured. */
  datatype Platform = Platform(cores: map<AppId, Core>, configured: bool)

  predicate InstalledUnchanged(p: Platform, app: AppId, release: Digest) {
    && p.configured && app in p.cores
    && Current(p.cores[app].history).Some?
    && Current(p.cores[app].history).value.selection.manifest == release
    && PendingChange(p.cores[app]).None?
  }

  /** No card can still offer it, or it is the app's own failed or other-release attempt. */
  predicate Stale(p: Platform, a: Attempt, app: AppId, release: Digest) {
    || a.rejected
    || (a.app == app && (a.release != release || a.state.Failure?))
    || InstalledUnchanged(p, a.app, a.release)
  }

  predicate AppIdle(p: Platform, app: AppId) {
    app in p.cores ==> RequireIdle(p.cores[app], false).Ok?
  }

  predicate Evictable(p: Platform, a: Attempt) { !a.state.Installing? && AppIdle(p, a.app) }

  // ---------------------------------------------------------------- reference

  function StaleOnes(p: Platform, attempts: seq<Attempt>, app: AppId, release: Digest): seq<Attempt> {
    if attempts == [] then []
    else
      var n := |attempts| - 1;
      StaleOnes(p, attempts[..n], app, release) + (if Stale(p, attempts[n], app, release) then [attempts[n]] else [])
  }

  function Others(p: Platform, attempts: seq<Attempt>, app: AppId, release: Digest): seq<Attempt> {
    if attempts == [] then []
    else
      var n := |attempts| - 1;
      Others(p, attempts[..n], app, release) +
      (if !Stale(p, attempts[n], app, release) && attempts[n].app != app then [attempts[n]] else [])
  }

  function EvictableOnes(p: Platform, others: seq<Attempt>): seq<Attempt> {
    if others == [] then []
    else
      var n := |others| - 1;
      EvictableOnes(p, others[..n]) + (if Evictable(p, others[n]) then [others[n]] else [])
  }

  function Excess(others: seq<Attempt>): nat {
    if |others| > PREVIEW_SLOTS - 1 then |others| - (PREVIEW_SLOTS - 1) else 0
  }

  /** The oldest evictable ones, never more than the excess. */
  function Oldest(p: Platform, others: seq<Attempt>): seq<Attempt> {
    var candidates := EvictableOnes(p, others);
    candidates[..if Excess(others) < |candidates| then Excess(others) else |candidates|]
  }

  // ---------------------------------------------------------------- the two loops

  method PreviewsToEvict(p: Platform, attempts: seq<Attempt>, app: AppId, release: Digest) returns (evict: seq<Attempt>)
    ensures evict == StaleOnes(p, attempts, app, release) + Oldest(p, Others(p, attempts, app, release))
  {
    hide Stale, InstalledUnchanged, Oldest;
    evict := [];
    var others := [];
    for i := 0 to |attempts|
      invariant evict == StaleOnes(p, attempts[..i], app, release)
      invariant others == Others(p, attempts[..i], app, release)
    {
      var a := attempts[i];
      assert attempts[..i + 1][..i] == attempts[..i];
      if Stale(p, a, app, release) {
        evict := evict + [a];
      } else if a.app != app {
        others := others + [a];
      }
    }
    assert attempts[..|attempts|] == attempts;
    var oldest := EvictOldest(p, others);
    evict := evict + oldest;
  }

  /** The second pass, which stops as soon as the excess is gone. */
  method EvictOldest(p: Platform, others: seq<Attempt>) returns (evict: seq<Attempt>)
    ensures evict == Oldest(p, others)
  {
    hide AppIdle;
    evict := [];
    var excess := |others| - (PREVIEW_SLOTS - 1);
    var i := 0;
    while i < |others| && excess > 0
      invariant 0 <= i <= |others|
      invariant evict == EvictableOnes(p, others[..i]) <= EvictableOnes(p, others)
      invariant excess == |others| - (PREVIEW_SLOTS - 1) - |evict|
      invariant excess >= 0 || i == 0
      decreases |others| - i
    {
      assert others[..i + 1][..i] == others[..i];
      EvictableGrows(p, others, i + 1);
      if !others[i].state.Installing? && AppIdle(p, others[i].app) {
        evict := evict + [others[i]];
        excess := excess - 1;
      }
      i := i + 1;
    }
    assert i == |others| ==> others[..i] == others;
  }

  lemma {:induction false} EvictableGrows(p: Platform, others: seq<Attempt>, i: nat)
    requires i <= |others|
    ensures EvictableOnes(p, others[..i]) <= EvictableOnes(p, others)
    decreases |others|
  {
    if i < |others| {
      var n := |others| - 1;
      EvictableGrows(p, others[..n], i);
      assert others[..n][..i] == others[..i];
    } else {
      assert others[..i] == others;
    }
  }

  // ---------------------------------------------------------------- what it achieves

  lemma {:induction false} Sorted(p: Platform, attempts: seq<Attempt>, app: AppId, release: Digest, a: Attempt)
    ensures a in StaleOnes(p, attempts, app, release) <==> a in attempts && Stale(p, a, app, release)
    ensures a in Others(p, attempts, app, release) <==> a in attempts && !Stale(p, a, app, release) && a.app != app
    decreases |attempts|
  {
    if attempts != [] {
      var n := |attempts| - 1;
      Sorted(p, attempts[..n], app, release, a);
      assert attempts == attempts[..n] + [attempts[n]];
    }
  }

  lemma {:induction false} CandidatesAre(p: Platform, others: seq<Attempt>, a: Attempt)
    ensures a in EvictableOnes(p, others) <==> a in others && Evictable(p, a)
    decreases |others|
  {
    if others != [] {
      var n := |others| - 1;
      CandidatesAre(p, others[..n], a);
      assert others == others[..n] + [others[n]];
    }
  }

  /** Everything evicted is stale, or another app's idle preview that is not installing; every
      stale attempt is evicted, and the app's own attempt at this release is kept. */
  lemma EvictsOnlyWhatItMay(p: Platform, attempts: seq<Attempt>, app: AppId, release: Digest, a: Attempt)
    requires a in attempts
    ensures var evict := StaleOnes(p, attempts, app, release) + Oldest(p, Others(p, attempts, app, release));
            && (Stale(p, a, app, release) ==> a in evict)
            && (a in evict && !Stale(p, a, app, release) ==> a.app != app && Evictable(p, a))
            && (a.app == app && !Stale(p, a, app, release) ==> a !in evict)
  {
    var others := Others(p, attempts, app, release);
    Sorted(p, attempts, app, release, a);
    CandidatesAre(p, others, a);
    assert a in Oldest(p, others) ==> a in EvictableOnes(p, others);
  }

  /** After the second pass at most one other app's preview is left, or every one left is
      installing or belongs to a busy app. */
  lemma LeavesOneOrOnlyBusy(p: Platform, others: seq<Attempt>)
    ensures || |others| - |Oldest(p, others)| <= PREVIEW_SLOTS - 1
            || (forall a | a in others && a !in Oldest(p, others) :: !Evictable(p, a))
    ensures |Oldest(p, others)| <= Excess(others)
  {
    var candidates := EvictableOnes(p, others);
    if |candidates| <= Excess(others) {
      assert Oldest(p, others) == candidates;
      forall a | a in others && a !in Oldest(p, others) ensures !Evictable(p, a) {
        CandidatesAre(p, others, a);
      }
    }
  }

  // ---------------------------------------------------------------- staging after the evictions

  /** The unique index app_preview_active. */
  predicate OnePerApp(attempts: seq<Attempt>) {
    forall i, j | 0 <= i < j < |attempts| :: attempts[i].app != attempts[j].app
  }

  /** The previews of other apps that stay. */
  function Spared(attempts: seq<Attempt>, evict: seq<Attempt>, app: AppId): set<Attempt> {
    set a | a in attempts && a !in evict && a.app != app
  }

  lemma {:induction false} OthersOnePerApp(p: Platform, attempts: seq<Attempt>, app: AppId, release: Digest)
    requires OnePerApp(attempts)
    ensures OnePerApp(Others(p, attempts, app, release))
    decreases |attempts|
  {
    if attempts != [] {
      var n := |attempts| - 1;
      var rest := Others(p, attempts[..n], app, release);
      OthersOnePerApp(p, attempts[..n], app, release);
      forall i | 0 <= i < |rest| ensures rest[i].app != attempts[n].app {
        assert rest[i] in rest;
        Sorted(p, attempts[..n], app, release, rest[i]);
      }
    }
  }

  lemma {:induction false} CandidatesOnePerApp(p: Platform, others: seq<Attempt>)
    requires OnePerApp(others)
    ensures OnePerApp(EvictableOnes(p, others))
    decreases |others|
  {
    if others != [] {
      var n := |others| - 1;
      var rest := EvictableOnes(p, others[..n]);
      CandidatesOnePerApp(p, others[..n]);
      forall i | 0 <= i < |rest| ensures rest[i].app != others[n].app {
        assert rest[i] in rest;
        CandidatesAre(p, others[..n], rest[i]);
      }
    }
  }

  lemma {:induction false} SizeOfDistinct(s: seq<Attempt>)
    requires OnePerApp(s)
    ensures |set a | a in s| == |s|
    decreases |s|
  {
    if s == [] {
      assert (set a | a in s) == {};
    } else {
      var n := |s| - 1;
      SizeOfDistinct(s[..n]);
      assert (set a | a in s) == (set a | a in s[..n]) + {s[n]};
    }
  }

  lemma OldestFacts(p: Platform, others: seq<Attempt>)
    requires OnePerApp(others)
    ensures OnePerApp(Oldest(p, others))
    ensures forall a | a in Oldest(p, others) :: a in others
  {
    hide Evictable;
    CandidatesOnePerApp(p, others);
    forall a | a in EvictableOnes(p, others) ensures a in others {
      CandidatesAre(p, others, a);
    }
  }

  /** After the evictions staging has room for one more preview, unless every other app's
      preview that stays is installing or belongs to a busy app. */
  lemma StagingAdmits(p: Platform, attempts: seq<Attempt>, app: AppId, release: Digest)
    requires OnePerApp(attempts)
    ensures var evict := StaleOnes(p, attempts, app, release) + Oldest(p, Others(p, attempts, app, release));
            var spared := Spared(attempts, evict, app);
            |spared| <= PREVIEW_SLOTS - 1 || forall a | a in spared :: !Evictable(p, a)
  {
    hide Stale, Evictable, Others, StaleOnes, Oldest, OnePerApp;
    var others := Others(p, attempts, app, release);
    var oldest := Oldest(p, others);
    var evict := StaleOnes(p, attempts, app, release) + oldest;
    var spared := Spared(attempts, evict, app);
    forall a | a in attempts
      ensures a in StaleOnes(p, attempts, app, release) <==> Stale(p, a, app, release)
      ensures a in others <==> !Stale(p, a, app, release) && a.app != app
    {
      Sorted(p, attempts, app, release, a);
    }
    forall a | a in others ensures a in attempts {
      Sorted(p, attempts, app, release, a);
    }
    OthersOnePerApp(p, attempts, app, release);
    OldestFacts(p, others);
    LeavesOneOrOnlyBusy(p, others);
    SizeOfDistinct(others);
    SizeOfDistinct(oldest);
    var all, gone := set a | a in others, set a | a in oldest;
    assert spared == all - gone && gone <= all;
  }
}
