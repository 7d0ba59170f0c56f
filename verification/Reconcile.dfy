/** Reconciling the journal with the modules that are there, step by step as the daemon does
    it, against what it should find. */
module Reconcile {
  import opened Wire
  import opened ModuleArgs
  import opened OwnershipModel

  predicate RolesApart(ms: seq<OwnedModule>) {
    forall i, j :: 0 <= i < j < |ms| ==> ms[i].role != ms[j].role
  }

  /** Only live modules, at most one to a role. */
  ghost predicate Genuinely(ms: seq<OwnedModule>, modules: Modules, g: string) {
    RolesApart(ms) && forall o <- ms :: Live(modules, o.role, g, o.id)
  }

  /** The role's live modules are all listed. */
  ghost predicate Listed(ms: seq<OwnedModule>, modules: Modules, role: Role, g: string) {
    forall id :: Live(modules, role, g, id) ==> OwnedModule(role, id) in ms
  }

  lemma {:induction false} ModuleForIs(ms: seq<OwnedModule>, role: Role)
    ensures ModuleFor(ms, role).Some? ==> OwnedModule(role, ModuleFor(ms, role).value) in ms
    ensures ModuleFor(ms, role).None? ==> forall o <- ms :: o.role != role
  {
    if ms != [] { ModuleForIs(ms[1..], role); }
  }

  /** The journalled modules that are still there, unless one is not what it was. */
  method KeepJournalled(journal: Journal, modules: Modules) returns (kept: Option<seq<OwnedModule>>)
    requires Valid(journal)
    ensures kept.Some? <==> Truthful(journal.modules, modules, journal.generation)
    ensures kept.Some? ==> Genuinely(kept.value, modules, journal.generation)
  {
    hide ModuleMatches, ValidGeneration, NoIdTwice;
    var (g, js) := (journal.generation, journal.modules);
    var ms: seq<OwnedModule> := [];
    for i := 0 to |js|
      invariant Truthful(js[..i], modules, g)
      invariant Genuinely(ms, modules, g)
      invariant forall o <- ms :: i < |js| ==> Index(o.role) < Index(js[i].role)
    {
      var owned := js[i];
      if owned.id in modules {
        if !ModuleMatches(owned.role, modules[owned.id], g) {
          assert owned in js;
          return None;
        }
        ms := ms + [owned];
      }
      assert js[..i + 1] == js[..i] + [owned];
      assert i + 1 < |js| ==> Index(js[i].role) < Index(js[i + 1].role);
    }
    assert js[..|js|] == js;
    kept := Some(ms);
  }

  method CheckClaims(modules: Modules, g: string) returns (ok: bool)
    ensures ok <==> NoImpostor(modules, g)
  {
    hide ModuleMatches, ClaimedRole;
    var rest := modules.Keys;
    while rest != {}
      invariant rest <= modules.Keys
      invariant forall id <- modules :: id in rest || Genuine(modules[id], g)
    {
      var id :| id in rest;
      var claimed := ClaimedRole(modules[id], g);
      if claimed.Some? && !ModuleMatches(claimed.value, modules[id], g) {
        assert id in modules;
        return false;
      }
      rest := rest - {id};
    }
    ok := true;
  }

  /** Every live module is listed, whether the journal knew of it or not. */
  method AdoptMarked(kept: seq<OwnedModule>, modules: Modules, g: string) returns (all: Option<seq<OwnedModule>>)
    requires Genuinely(kept, modules, g)
    ensures all.Some? <==> forall role :: |LiveIds(modules, role, g)| <= 1
    ensures all.Some? ==> Genuinely(all.value, modules, g) && forall role :: Listed(all.value, modules, role, g)
  {
    hide ModuleMatches;
    var ms := kept;
    for k := 0 to |ORDER|
      invariant Genuinely(ms, modules, g)
      invariant forall r <- ORDER[..k] :: |LiveIds(modules, r, g)| <= 1 && Listed(ms, modules, r, g)
    {
      var role := ORDER[k];
      var ids := LiveIds(modules, role, g);
      ModuleForIs(ms, role);
      OneAtMost(ids);
      if |ids| > 1 {
        return None;
      }
      if ids != {} {
        var id :| id in ids;
        assert forall x :: Live(modules, role, g, x) ==> x in ids;
        match ModuleFor(ms, role)
        case Some(journalled) =>
          assert journalled in ids;
        case None =>
          ms := ms + [OwnedModule(role, id)];
      }
      assert Listed(ms, modules, role, g) by {
        forall x | Live(modules, role, g, x) ensures OwnedModule(role, x) in ms { assert x in ids; }
      }
      assert ORDER[..k + 1] == ORDER[..k] + [role];
    }
    forall role ensures |LiveIds(modules, role, g)| <= 1 && Listed(ms, modules, role, g) {
      assert ORDER[..|ORDER|][Index(role)] == role;
    }
    all := Some(ms);
  }

  /** Each endpoint found must belong to a listed module. Had one belonged to a live module
      that is not listed it would be added here, but there is none. */
  method CheckEndpoints(ms: seq<OwnedModule>, raw: RawGraph, modules: Modules, g: string) returns (ok: bool)
    requires Genuinely(ms, modules, g)
    requires forall role :: |LiveIds(modules, role, g)| <= 1 && Listed(ms, modules, role, g)
    ensures ok <==> forall role :: Vouched(raw, role, modules, g)
  {
    hide ModuleMatches, EndpointsFor;
    for k := 0 to |ORDER|
      invariant forall r <- ORDER[..k] :: Vouched(raw, r, modules, g)
    {
      var role := ORDER[k];
      var discovered := EndpointsFor(raw, role);
      if discovered != [] {
        var owner := discovered[0].owner;
        if owner !in modules || !ModuleMatches(role, modules[owner], g) {
          assert !Vouched(raw, role, modules, g);
          return false;
        }
        ModuleForIs(ms, role);
        OneAtMost(LiveIds(modules, role, g));
        assert owner in LiveIds(modules, role, g);
        assert OwnedModule(role, owner) in ms;
        match ModuleFor(ms, role)
        case Some(id) =>
          assert id in LiveIds(modules, role, g);
          assert id == owner;
        case None =>
          assert false;
      }
      assert ORDER[..k + 1] == ORDER[..k] + [role];
    }
    forall role ensures Vouched(raw, role, modules, g) {
      assert ORDER[..|ORDER|][Index(role)] == role;
    }
    ok := true;
  }

  function Pick(ms: seq<OwnedModule>, role: Role): seq<OwnedModule> {
    if ms == [] then [] else (if ms[0].role == role then [ms[0]] else []) + Pick(ms[1..], role)
  }

  /** A stable sort by role. */
  function SortedByRole(ms: seq<OwnedModule>): seq<OwnedModule> {
    Pick(ms, MicOutSink) + Pick(ms, VirtualMicSource) + Pick(ms, RemoteInSink)
  }

  lemma {:induction false} PickIs(ms: seq<OwnedModule>, role: Role)
    requires RolesApart(ms)
    ensures forall o <- ms :: o.role == role ==> Pick(ms, role) == [o]
    ensures (forall o <- ms :: o.role != role) ==> Pick(ms, role) == []
  {
    if ms != [] {
      PickIs(ms[1..], role);
      assert forall o <- ms[1..] :: exists i :: 1 <= i < |ms| && ms[i] == o;
    }
  }

  lemma PickFound(ms: seq<OwnedModule>, modules: Modules, role: Role, g: string)
    requires Genuinely(ms, modules, g) && Listed(ms, modules, role, g) && |LiveIds(modules, role, g)| <= 1
    ensures Pick(ms, role) == Found(modules, role, g)
  {
    hide ModuleMatches;
    PickIs(ms, role);
    if id :| id in LiveIds(modules, role, g) {
      FoundIs(modules, role, g, id);
      assert OwnedModule(role, id) in ms;
    } else {
      assert forall o <- ms :: o.role == role ==> o.id in LiveIds(modules, role, g);
    }
  }

  /** From a valid journal, reconciling succeeds exactly when nothing seen is inconsistent,
      and what it finds is exactly the live modules that match, in role order: nothing can
      be left to add at the end, and the result is always a valid journal. */
  method ReconcileOwnership(raw: RawGraph, journal: Journal, modules: Modules) returns (r: Option<Journal>)
    requires Valid(journal)
    ensures r.Some? <==> Consistent(raw, journal, modules)
    ensures r.Some? ==> r.value == Exactly(modules, journal.generation) && Valid(r.value)
    ensures r.Some? ==> forall o :: o in r.value.modules <==> Live(modules, o.role, journal.generation, o.id)
  {
    hide ModuleMatches, ValidGeneration, NoImpostor, Truthful, Vouched, Genuinely, Found, Live;
    var g := journal.generation;
    var kept := KeepJournalled(journal, modules);
    if kept.None? { return None; }
    var clear := CheckClaims(modules, g);
    if !clear { return None; }
    var all := AdoptMarked(kept.value, modules, g);
    if all.None? { return None; }
    var vouched := CheckEndpoints(all.value, raw, modules, g);
    if !vouched { return None; }
    var reconciled := Journal(JOURNAL_SCHEMA_VERSION, g, SortedByRole(all.value));
    forall role ensures Pick(all.value, role) == Found(modules, role, g) {
      PickFound(all.value, modules, role, g);
    }
    ExactlyIs(modules, g);
    var valid := Validate(reconciled);
    assert valid;
    r := Some(reconciled);
  }
}
