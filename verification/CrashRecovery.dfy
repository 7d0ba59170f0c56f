/** Left alone after any crash, the daemon gets what it wants: a clean-up ends with nothing
    left, and setting up ends with all three devices in place; and whenever setting up reports
    success, they were. */
module CrashRecovery {
  import opened Wire
  import opened ModuleArgs
  import opened OwnershipModel
  import opened CrashModel
  import opened CrashSafety
  import opened ModuleWords

  // ---- Left alone ----

  /** What the sound server shows when the daemon looks: first, once more after cleaning up, and
      last, when it has set everything up. */
  datatype Sight = Sight(first: RawGraph, again: RawGraph, last: RawGraph)

  function Seen(pc: Pc, sight: Sight): RawGraph {
    if pc.Verifying? then sight.last else if pc.Rechecking? then sight.again else sight.first
  }

  /** The daemon's next effect, when it succeeds. */
  ghost function Next(w: World, sight: Sight): World {
    Advance(w, Succeeds, Seen(w.pc, sight))
  }

  /** The daemon goes on for `n` effects, each of which succeeds. */
  ghost function Lucky(w: World, sight: Sight, n: nat): World
    decreases n
  {
    if n == 0 then w else Lucky(Next(w, sight), sight, n - 1)
  }

  lemma NextKeeps(w: World, sight: Sight)
    requires Inv(w)
    ensures Inv(Next(w, sight))
  {
    hide Inv, Advance;
    AdvanceKeeps(w, Succeeds, Seen(w.pc, sight));
  }

  lemma {:induction false} LuckyMore(w: World, sight: Sight, m: nat, n: nat)
    ensures Lucky(Lucky(w, sight, m), sight, n) == Lucky(w, sight, m + n)
    decreases m
  {
    hide Next;
    if m > 0 { LuckyMore(Next(w, sight), sight, m - 1, n); }
  }

  lemma LuckyThree(w: World, sight: Sight)
    ensures Lucky(w, sight, 1) == Next(w, sight)
    ensures Lucky(w, sight, 2) == Next(Next(w, sight), sight)
    ensures Lucky(w, sight, 3) == Next(Next(Next(w, sight), sight), sight)
  {
    hide Next;
    assert forall x :: Lucky(x, sight, 0) == x;
    assert forall x :: Lucky(x, sight, 1) == Next(x, sight);
    assert forall x :: Lucky(x, sight, 2) == Lucky(Next(x, sight), sight, 1);
  }

  // ---- Cleaning up ----

  lemma PoppedValid(j: Journal)
    requires Valid(j) && j.modules != []
    ensures Valid(Popped(j))
  {}

  lemma Looks(w: World, sight: Sight)
    requires Inv(w) && w.pc.Cleaning? && w.pc.known.modules != []
    ensures var (op, j) := (w.pc.op, w.pc.known);
            Next(w, sight) ==
            w.(pc := if Last(j).id in w.stock.modules then CleanUnload(op, j) else CleanShrink(op, j))
  {
    hide ModuleMatches, Faithful, OnePerRole, Journalled, Covers, Truthy;
    if Last(w.pc.known).id in w.stock.modules {
      LastRecognised(w, w.pc.known);
    }
  }

  lemma Unloads(w: World, sight: Sight)
    requires w.pc.CleanUnload? && w.pc.known.modules != [] && Last(w.pc.known).id in w.stock.modules
    ensures Next(w, sight).pc == CleanShrink(w.pc.op, w.pc.known)
  {}

  lemma Shrinks(w: World, sight: Sight)
    requires w.pc.CleanShrink? && Valid(w.pc.known) && w.pc.known.modules != []
    ensures Next(w, sight).pc == Cleaning(w.pc.op, Popped(w.pc.known))
  {
    PoppedValid(w.pc.known);
    hide Valid;
  }

  lemma LoadsNothing(w: World, sight: Sight)
    requires !w.pc.Building?
    ensures Next(w, sight).stock.nextId == w.stock.nextId
  {
    hide ModuleMatches, Valid, Consistent, Exactly, MatchesGraph, HasAnyRequired, HasDuplicateRequired, Loaded;
  }

  /** Three effects at most for each journalled module. */
  lemma OneLess(w: World, sight: Sight) returns (n: nat)
    requires Inv(w) && w.pc.Cleaning? && Valid(w.pc.known) && w.pc.known.modules != []
    ensures Inv(Lucky(w, sight, n)) && Lucky(w, sight, n).pc == Cleaning(w.pc.op, Popped(w.pc.known)) && n <= 3
    ensures Lucky(w, sight, n).stock.nextId == w.stock.nextId
  {
    hide Valid, Inv, Next, Popped, Lucky;
    var j := w.pc.known;
    Looks(w, sight);
    LuckyThree(w, sight);
    NextKeeps(w, sight);
    var w1 := Next(w, sight);
    NextKeeps(w1, sight);
    var w2 := Next(w1, sight);
    LoadsNothing(w, sight);
    LoadsNothing(w1, sight);
    if Last(j).id in w.stock.modules {
      Unloads(w1, sight);
      LoadsNothing(w2, sight);
      NextKeeps(w2, sight);
      Shrinks(w2, sight);
      n := 3;
    } else {
      Shrinks(w1, sight);
      n := 2;
    }
  }

  /** What a clean-up does once the journal is empty: it is over, or the setting up goes on. */
  lemma {:induction false} CleansThrough(w: World, sight: Sight) returns (n: nat)
    requires Inv(w) && w.pc.Cleaning? && Valid(w.pc.known)
    ensures var (w', op) := (Lucky(w, sight, n), w.pc.op);
            Inv(w') && w'.pc == (if op.Ensure? then Rechecking(op.generation) else Idle(Some(true)))
    ensures n <= 3 * |w.pc.known.modules| + 1 && Lucky(w, sight, n).stock.nextId == w.stock.nextId
    decreases |w.pc.known.modules|
  {
    hide Inv, Valid, Lucky;
    var j := w.pc.known;
    LuckyThree(w, sight);
    if j.modules == [] {
      n := 1;
      NextKeeps(w, sight);
      LoadsNothing(w, sight);
    } else {
      var m := OneLess(w, sight);
      PoppedValid(j);
      var k := CleansThrough(Lucky(w, sight, m), sight);
      LuckyMore(w, sight, m, k);
      n := m + k;
    }
  }

  /** From the journal and the endpoints to cleaning what was found, unless all is well already. */
  lemma Reconciling(w: World, sight: Sight) returns (m: nat)
    requires Inv(w) && w.pc.HaveRaw? && Consistent(w.pc.raw, w.pc.known, w.stock.modules)
    ensures m <= 2 && Inv(Lucky(w, sight, m))
    ensures var w' := Lucky(w, sight, m);
            if w.pc.op.Ensure? && MatchesGraph(w.pc.raw, Exactly(w.stock.modules, w.pc.known.generation))
            then w'.pc == Idle(Some(true))
            else w'.pc.Cleaning? && w'.pc.op == w.pc.op && Valid(w'.pc.known) && |w'.pc.known.modules| <= 3
    ensures Lucky(w, sight, m).stock == w.stock
  {
    hide Consistent, Exactly, MatchesGraph, Lucky, Next, Valid;
    var (r, w1) := (Exactly(w.stock.modules, w.pc.known.generation), Next(w, sight));
    ExactlyOurs(w, w.pc.raw, w.pc.known);
    hide Inv;
    NextKeeps(w, sight);
    NextKeeps(w1, sight);
    LuckyThree(w, sight);
    ReconcileNext(w, sight);
    ValidIsShort(r);
    if r != w.pc.known {
      ResaveNext(w1, sight);
      m := 2;
    } else {
      m := 1;
    }
  }

  lemma ValidIsShort(j: Journal)
    requires Valid(j)
    ensures |j.modules| <= 3
  {
    hide ValidGeneration, InRoleOrder, NoIdTwice;
  }

  lemma ReconcileNext(w: World, sight: Sight)
    requires w.pc.HaveRaw? && Consistent(w.pc.raw, w.pc.known, w.stock.modules)
    ensures var (op, raw, r) := (w.pc.op, w.pc.raw, Exactly(w.stock.modules, w.pc.known.generation));
            Next(w, sight) == if r != w.pc.known then w.(pc := Resaving(op, r, raw)) else AfterResave(w, op, r, raw)
  {
    hide Consistent, Exactly, AfterResave;
  }

  lemma ResaveNext(w: World, sight: Sight)
    requires w.pc.Resaving? && Valid(w.pc.known)
    ensures Next(w, sight) == AfterResave(w.(disk := Some(w.pc.known)), w.pc.op, w.pc.known, w.pc.raw)
  {
    hide Valid, AfterResave;
  }

  lemma Begins(w: World, op: Operation, sight: Sight)
    requires w.pc.Idle? && w.disk.Some? && !HasDuplicateRequired(sight.first)
    ensures Lucky(Step(w, Begin(op)), sight, 2) == w.(pc := HaveRaw(op, w.disk.value, sight.first))
  {
    hide HasDuplicateRequired, HasAnyRequired;
    var w0 := Step(w, Begin(op));
    LuckyThree(w0, sight);
    assert Next(w0, sight) == w.(pc := HaveJournal(op, w.disk));
  }

  lemma BeginsNothing(w: World, sight: Sight)
    requires w.pc.Idle? && w.disk.None?
    ensures Next(Step(w, Begin(Cleanup)), sight).pc == Idle(Some(true))
  {}

  /** From any state a crash can leave, a clean-up that nothing goes wrong for succeeds, in
      at most fourteen effects, as long as the endpoints seen are the daemon's own. */
  lemma CleanupSucceeds(w: World, sight: Sight) returns (n: nat)
    requires Inv(w) && w.pc.Idle? && OneAtMostThere(sight.first)
    requires w.disk.Some? ==> forall role :: Vouched(sight.first, role, w.stock.modules, w.disk.value.generation)
    ensures Lucky(Step(w, Begin(Cleanup)), sight, n).pc == Idle(Some(true)) && n <= 14
  {
    ThereIff(sight.first);
    hide OneAtMostThere, HasDuplicateRequired, Consistent, Next, Lucky, Vouched, MatchesGraph, Exactly;
    var w0 := Step(w, Begin(Cleanup));
    if w.disk.None? {
      LuckyThree(w0, sight);
      BeginsNothing(w, sight);
      n := 1;
    } else {
      RecoversIff(w, sight.first);
      Begins(w, Cleanup, sight);
      var w2 := Lucky(w0, sight, 2);
      RawHeld(w, Cleanup, sight.first);
      hide Inv;
      var m := Reconciling(w2, sight);
      LuckyMore(w0, sight, 2, m);
      var k := CleansThrough(Lucky(w2, sight, m), sight);
      LuckyMore(w0, sight, 2 + m, k);
      n := 2 + m + k;
    }
  }

  lemma RawHeld(w: World, op: Operation, raw: RawGraph)
    requires Inv(w) && w.disk.Some?
    ensures Inv(w.(pc := HaveRaw(op, w.disk.value, raw)))
  {
    hide Sound;
  }

  // ---- Setting up ----

  /** The sound server shows one endpoint for each role, owned by the module loaded for it. */
  ghost predicate ShowsNew(raw: RawGraph, nextId: ModuleId) {
    forall k :: 0 <= k < 3 ==> OneOwned(raw, ORDER[k], nextId + k)
  }

  predicate OneOwned(raw: RawGraph, role: Role, id: ModuleId) {
    |EndpointsFor(raw, role)| == 1 && EndpointsFor(raw, role)[0].owner == id
  }

  /** The journal once the first `k` devices are set up. */
  function NewJournal(g: string, first: ModuleId, k: nat): Journal
    requires k <= 3
  {
    Journal(1, g, seq(k, i requires 0 <= i < k => OwnedModule(ORDER[i], first + i)))
  }

  lemma NewValid(g: string, first: ModuleId, k: nat)
    requires k <= 3 && ValidGeneration(g)
    ensures Valid(NewJournal(g, first, k))
  {
    hide ValidGeneration;
  }

  /** One device more: it is loaded and written down. */
  lemma OneSetUp(w: World, sight: Sight, g: string, first: ModuleId, k: nat)
    requires k < 3 && ValidGeneration(g) && w.stock.nextId == first + k
    requires w.pc == Building(NewJournal(g, first, k), k)
    ensures var w' := Lucky(w, sight, 2);
            w'.pc == Building(NewJournal(g, first, k + 1), k + 1) && w'.stock.nextId == first + k + 1
  {
    hide ValidGeneration, Valid, Lucky, Next, NewJournal;
    NewJournalMore(g, first, k);
    LuckyThree(w, sight);
    NewValid(g, first, k + 1);
    LoadsOne(w, sight);
    WritesDown(Next(w, sight), sight);
  }

  lemma NewJournalMore(g: string, first: ModuleId, k: nat)
    requires k < 3
    ensures var j := NewJournal(g, first, k);
            && j.generation == g
            && j.(modules := j.modules + [OwnedModule(ORDER[k], first + k)]) == NewJournal(g, first, k + 1)
  {}

  lemma LoadsOne(w: World, sight: Sight)
    requires w.pc.Building? && w.pc.k < 3
    ensures var (w', j) := (Next(w, sight), w.pc.known);
            && w'.pc == Recording(j.(modules := j.modules + [OwnedModule(ORDER[w.pc.k], w.stock.nextId)]), w.pc.k + 1)
            && w'.stock.nextId == w.stock.nextId + 1
  {
    hide Loaded;
  }

  lemma WritesDown(w: World, sight: Sight)
    requires w.pc.Recording? && Valid(w.pc.known)
    ensures Next(w, sight).pc == Building(w.pc.known, w.pc.k) && Next(w, sight).stock == w.stock
  {
    hide Valid;
  }

  lemma AllSetUp(w: World, sight: Sight, g: string)
    requires ValidGeneration(g) && w.pc == CreateStart(g) && ShowsNew(sight.last, w.stock.nextId)
    ensures Lucky(w, sight, 9).pc == Idle(Some(true))
  {
    var first := w.stock.nextId;
    LuckyThree(w, sight);
    Created(w, sight, g);
    hide Lucky, Next, ValidGeneration, ShowsNew, NewJournal;
    var w1 := Lucky(w, sight, 1);
    OneSetUp(w1, sight, g, first, 0);
    LuckyMore(w, sight, 1, 2);
    var w3 := Lucky(w, sight, 3);
    OneSetUp(w3, sight, g, first, 1);
    LuckyMore(w, sight, 3, 2);
    var w5 := Lucky(w, sight, 5);
    OneSetUp(w5, sight, g, first, 2);
    LuckyMore(w, sight, 5, 2);
    var w7 := Lucky(w, sight, 7);
    Verified(w7, sight, g, first);
    LuckyMore(w, sight, 7, 2);
  }

  lemma Created(w: World, sight: Sight, g: string)
    requires ValidGeneration(g) && w.pc == CreateStart(g)
    ensures var w1 := Next(w, sight);
            w1.pc == Building(NewJournal(g, w.stock.nextId, 0), 0) && w1.stock == w.stock
  {
    hide ValidGeneration;
    assert Empty(g) == NewJournal(g, w.stock.nextId, 0);
  }

  lemma Verified(w: World, sight: Sight, g: string, first: ModuleId)
    requires w.pc == Building(NewJournal(g, first, 3), 3) && ShowsNew(sight.last, first)
    ensures Lucky(w, sight, 2).pc == Idle(Some(true))
  {
    hide Lucky, MatchesGraph, NewJournal, ShowsNew, Next;
    LuckyThree(w, sight);
    NewMatches(sight.last, g, first);
    BuiltNext(w, sight);
    VerifiedNext(Next(w, sight), sight);
  }

  lemma BuiltNext(w: World, sight: Sight)
    requires w.pc.Building? && w.pc.k == 3
    ensures Next(w, sight) == w.(pc := Verifying(w.pc.known))
  {}

  lemma VerifiedNext(w: World, sight: Sight)
    requires w.pc.Verifying? && MatchesGraph(sight.last, w.pc.known)
    ensures Next(w, sight).pc == Idle(Some(true))
  {
    hide MatchesGraph;
  }

  lemma NewMatches(raw: RawGraph, g: string, first: ModuleId)
    requires ShowsNew(raw, first)
    ensures MatchesGraph(raw, NewJournal(g, first, 3))
  {
    hide EndpointsFor;
    var j := NewJournal(g, first, 3);
    assert OneOwned(raw, ORDER[0], first + 0) && OneOwned(raw, ORDER[1], first + 1);
    assert OneOwned(raw, ORDER[2], first + 2);
    var (a, b, c) := (j.modules[0], j.modules[1], j.modules[2]);
    assert j.modules == [a, b, c] && [a, b, c][1..] == [b, c] && [b, c][1..] == [c];
    assert ModuleFor(j.modules, ORDER[0]) == Some(first);
    assert ModuleFor([b, c], ORDER[1]) == Some(first + 1);
    assert ModuleFor(j.modules, ORDER[1]) == Some(first + 1);
    assert ModuleFor([c], ORDER[2]) == Some(first + 2);
    assert ModuleFor([b, c], ORDER[2]) == Some(first + 2);
    assert ModuleFor(j.modules, ORDER[2]) == Some(first + 2);
  }

  /** Every role has exactly one endpoint. */
  ghost predicate AllThere(raw: RawGraph) {
    forall role :: |EndpointsFor(raw, role)| == 1
  }

  lemma FoundOne(modules: Modules, role: Role, g: string, id: ModuleId)
    requires |LiveIds(modules, role, g)| <= 1 && Live(modules, role, g, id)
    ensures Found(modules, role, g) == [OwnedModule(role, id)]
  {
    FoundIs(modules, role, g, id);
  }

  /** One endpoint for each role, each vouched for: nothing is left to do. */
  lemma ThereMatches(raw: RawGraph, modules: Modules, g: string)
    requires AllThere(raw) && forall role :: |LiveIds(modules, role, g)| <= 1
    requires forall role :: Vouched(raw, role, modules, g)
    ensures MatchesGraph(raw, Exactly(modules, g))
  {
    hide EndpointsFor, LiveIds, Live, Found;
    assert |EndpointsFor(raw, MicOutSink)| == 1 && Vouched(raw, MicOutSink, modules, g);
    assert |EndpointsFor(raw, VirtualMicSource)| == 1 && Vouched(raw, VirtualMicSource, modules, g);
    assert |EndpointsFor(raw, RemoteInSink)| == 1 && Vouched(raw, RemoteInSink, modules, g);
    var a := EndpointsFor(raw, MicOutSink)[0].owner;
    var b := EndpointsFor(raw, VirtualMicSource)[0].owner;
    var c := EndpointsFor(raw, RemoteInSink)[0].owner;
    FoundOne(modules, MicOutSink, g, a);
    FoundOne(modules, VirtualMicSource, g, b);
    FoundOne(modules, RemoteInSink, g, c);
    ThreeModules(a, b, c);
    assert Exactly(modules, g).modules == Three(a, b, c);
  }

  function Three(a: ModuleId, b: ModuleId, c: ModuleId): seq<OwnedModule> {
    [OwnedModule(MicOutSink, a), OwnedModule(VirtualMicSource, b), OwnedModule(RemoteInSink, c)]
  }

  lemma ThreeModules(a: ModuleId, b: ModuleId, c: ModuleId)
    ensures ModuleFor(Three(a, b, c), MicOutSink) == Some(a)
    ensures ModuleFor(Three(a, b, c), VirtualMicSource) == Some(b)
    ensures ModuleFor(Three(a, b, c), RemoteInSink) == Some(c)
  {
    var ms := Three(a, b, c);
    assert ms[1..] == [ms[1], ms[2]] && ms[1..][1..] == [ms[2]];
    assert ModuleFor([ms[2]], RemoteInSink) == Some(c);
    assert ModuleFor(ms[1..], RemoteInSink) == Some(c);
  }

  lemma BeginsFresh(w: World, g: string, sight: Sight)
    requires w.pc.Idle? && w.disk.None? && !HasDuplicateRequired(sight.first) && !HasAnyRequired(sight.first)
    ensures Lucky(Step(w, Begin(Ensure(g))), sight, 2) == w.(pc := CreateStart(g))
  {
    hide HasDuplicateRequired, HasAnyRequired;
    var w0 := Step(w, Begin(Ensure(g)));
    LuckyThree(w0, sight);
    assert Next(w0, sight) == w.(pc := HaveJournal(Ensure(g), None));
  }

  lemma Rechecks(w: World, g: string, sight: Sight)
    requires w.pc == Rechecking(g) && !HasAnyRequired(sight.again)
    ensures Lucky(w, sight, 1) == w.(pc := CreateStart(g))
  {
    hide HasAnyRequired;
    LuckyThree(w, sight);
  }

  ghost predicate NoneThere(raw: RawGraph) {
    forall role :: EndpointsFor(raw, role) == []
  }

  ghost predicate OneAtMostThere(raw: RawGraph) {
    forall role :: |EndpointsFor(raw, role)| <= 1
  }

  lemma ThereIff(raw: RawGraph)
    ensures HasAnyRequired(raw) <==> !NoneThere(raw)
    ensures HasDuplicateRequired(raw) <==> !OneAtMostThere(raw)
  {
    hide EndpointsFor;
    forall role: Role ensures role in ORDER {
      RoleInOrder(role);
    }
  }

  /** What setting up needs to see: nothing in the way, and in the end the new devices. */
  ghost predicate Clear(w: World, sight: Sight) {
    && OneAtMostThere(sight.first)
    && (if w.disk.None? then NoneThere(sight.first)
        else forall role :: Vouched(sight.first, role, w.stock.modules, w.disk.value.generation))
    && (w.disk.None? || !AllThere(sight.first) ==>
          NoneThere(sight.again) && ShowsNew(sight.last, w.stock.nextId))
  }

  lemma OneLivePerRole(w: World, raw: RawGraph)
    requires Inv(w) && w.disk.Some?
    requires forall role :: Vouched(raw, role, w.stock.modules, w.disk.value.generation)
    ensures Consistent(raw, w.disk.value, w.stock.modules)
    ensures forall role :: |LiveIds(w.stock.modules, role, w.disk.value.generation)| <= 1
  {
    RecoversIff(w, raw);
    hide Inv, Truthful, NoImpostor, Vouched;
  }

  /** From any state a crash can leave, setting up that nothing goes wrong for succeeds, in at
      most twenty-five effects; if all the devices were there already, nothing is loaded or unloaded. */
  lemma EnsureSucceeds(w: World, g: string, sight: Sight) returns (n: nat)
    requires Inv(w) && w.pc.Idle? && ValidGeneration(g) && Clear(w, sight)
    ensures var w' := Lucky(Step(w, Begin(Ensure(g))), sight, n);
            && w'.pc == Idle(Some(true)) && n <= 25
            && (w.disk.Some? && AllThere(sight.first) ==> w'.stock == w.stock)
  {
    hide HasDuplicateRequired, HasAnyRequired, Consistent, Next, Lucky, Vouched, MatchesGraph, Exactly, ShowsNew,
         AllThere, LiveIds, ValidGeneration, Inv, NoneThere, OneAtMostThere;
    ThereIff(sight.first);
    ThereIff(sight.again);
    var w0 := Step(w, Begin(Ensure(g)));
    if w.disk.None? {
      BeginsFresh(w, g, sight);
      AllSetUp(Lucky(w0, sight, 2), sight, g);
      LuckyMore(w0, sight, 2, 9);
      n := 11;
    } else {
      OneLivePerRole(w, sight.first);
      Begins(w, Ensure(g), sight);
      var w2 := Lucky(w0, sight, 2);
      RawHeld(w, Ensure(g), sight.first);
      var m := Reconciling(w2, sight);
      LuckyMore(w0, sight, 2, m);
      if AllThere(sight.first) {
        ThereMatches(sight.first, w.stock.modules, w.disk.value.generation);
        n := 2 + m;
      } else {
        n := EnsureGoesOn(w0, w2, m, g, sight);
      }
    }
  }

  lemma EnsureGoesOn(w0: World, w2: World, m: nat, g: string, sight: Sight) returns (n: nat)
    requires w2 == Lucky(w0, sight, 2) && m <= 2 && ValidGeneration(g)
    requires !HasAnyRequired(sight.again) && ShowsNew(sight.last, w2.stock.nextId)
    requires var w4 := Lucky(w2, sight, m);
             && Inv(w4) && w4.stock == w2.stock
             && (w4.pc == Idle(Some(true))
                 || (w4.pc.Cleaning? && w4.pc.op == Ensure(g) && Valid(w4.pc.known) && |w4.pc.known.modules| <= 3))
    ensures Lucky(w0, sight, n).pc == Idle(Some(true)) && n <= 25
  {
    hide *;
    LuckyMore(w0, sight, 2, m);
    var w4 := Lucky(w2, sight, m);
    n := 2 + m;
    if w4.pc.Cleaning? {
      var k := CleansThrough(w4, sight);
      LuckyMore(w0, sight, n, k);
      n := n + k;
      Rechecks(Lucky(w4, sight, k), g, sight);
      LuckyMore(w0, sight, n, 1);
      n := n + 1;
      AllSetUp(Lucky(w0, sight, n), sight, g);
      LuckyMore(w0, sight, n, 9);
      n := n + 9;
    }
  }

  // ---- What a success means ----

  /** The operation begun last. */
  ghost function LastBegun(start: World, events: seq<Happening>): Option<Operation> {
    if events == [] then None
    else
      var (before, e) := (events[..|events| - 1], events[|events| - 1]);
      if e.Begin? && Run(start, before).pc.Idle? then Some(e.op) else LastBegun(start, before)
  }

  /** What the sound server showed when the daemon last looked at the endpoints. */
  ghost function LastSeen(start: World, events: seq<Happening>): Option<RawGraph> {
    if events == [] then None
    else
      var (before, e) := (events[..|events| - 1], events[|events| - 1]);
      var pc := Run(start, before).pc;
      if e.Proceed? && e.luck.Succeeds? && (pc.HaveJournal? || pc.Rechecking? || pc.Verifying?)
      then Some(e.raw) else LastSeen(start, before)
  }

  predicate RolesTo(ms: seq<OwnedModule>, k: nat) {
    |ms| == k <= 3 && forall i :: 0 <= i < k ==> ms[i].role == ORDER[i]
  }

  /** Where setting up stands, against what was begun and seen. */
  ghost predicate Stands(w: World, begun: Option<Operation>, seen: Option<RawGraph>) {
    match w.pc
    case Idle(_) => true
    case Starting(op) => begun == Some(op)
    case HaveJournal(op, _) => begun == Some(op)
    case HaveRaw(op, j, raw) => begun == Some(op) && seen == Some(raw)
    case Resaving(op, j, raw) => begun == Some(op) && seen == Some(raw)
    case Cleaning(op, _) => begun == Some(op)
    case CleanUnload(op, _) => begun == Some(op)
    case CleanShrink(op, _) => begun == Some(op)
    case Rechecking(g) => begun == Some(Ensure(g))
    case CreateStart(g) => begun == Some(Ensure(g))
    case Building(j, k) => begun == Some(Ensure(j.generation)) && w.disk == Some(j) && RolesTo(j.modules, k)
    case Recording(j, k) => begun == Some(Ensure(j.generation)) && RolesTo(j.modules, k)
    case Verifying(j) => begun == Some(Ensure(j.generation)) && w.disk == Some(j) && RolesTo(j.modules, 3)
    case _ => true
  }

  ghost predicate StandsOn(w: World, luck: Luck, raw: RawGraph, begun: Option<Operation>, seen: Option<RawGraph>) {
    var looks := luck.Succeeds? && (w.pc.HaveJournal? || w.pc.Rechecking? || w.pc.Verifying?);
    Stands(Advance(w, luck, raw), begun, if looks then Some(raw) else seen)
  }

  lemma BuildStands(w: World, luck: Luck, raw: RawGraph, begun: Option<Operation>, seen: Option<RawGraph>)
    requires Stands(w, begun, seen)
    requires w.pc.CreateStart? || w.pc.Building? || w.pc.Recording? || w.pc.Verifying?
    ensures StandsOn(w, luck, raw, begun, seen)
  {
    hide Valid, Loaded, MatchesGraph, With;
  }

  lemma SurveyStands(w: World, luck: Luck, raw: RawGraph, begun: Option<Operation>, seen: Option<RawGraph>)
    requires Stands(w, begun, seen)
    requires w.pc.Starting? || w.pc.HaveJournal? || w.pc.HaveRaw? || w.pc.Resaving? || w.pc.Rechecking?
    ensures StandsOn(w, luck, raw, begun, seen)
  {
    hide Valid, Consistent, Exactly, MatchesGraph, HasAnyRequired, HasDuplicateRequired, RolesTo;
  }

  lemma CleanStands(w: World, luck: Luck, raw: RawGraph, begun: Option<Operation>, seen: Option<RawGraph>)
    requires Stands(w, begun, seen) && (w.pc.Cleaning? || w.pc.CleanUnload? || w.pc.CleanShrink?)
    ensures StandsOn(w, luck, raw, begun, seen)
  {
    hide Valid, ModuleMatches, RolesTo, Without;
  }

  lemma OtherStands(w: World, luck: Luck, raw: RawGraph, begun: Option<Operation>, seen: Option<RawGraph>)
    requires w.pc.Idle? || w.pc.RollingBack? || w.pc.RollUnload? || w.pc.RollShrink? || w.pc.RollGiveUp?
    ensures StandsOn(w, luck, raw, begun, seen)
  {
    hide Valid, ModuleMatches, RolesTo, Without;
  }

  lemma AdvanceStands(w: World, luck: Luck, raw: RawGraph, begun: Option<Operation>, seen: Option<RawGraph>)
    requires Stands(w, begun, seen)
    ensures StandsOn(w, luck, raw, begun, seen)
  {
    hide Stands, StandsOn;
    if w.pc.CreateStart? || w.pc.Building? || w.pc.Recording? || w.pc.Verifying? {
      BuildStands(w, luck, raw, begun, seen);
    } else if w.pc.Cleaning? || w.pc.CleanUnload? || w.pc.CleanShrink? {
      CleanStands(w, luck, raw, begun, seen);
    } else if w.pc.Idle? || w.pc.RollingBack? || w.pc.RollUnload? || w.pc.RollShrink? || w.pc.RollGiveUp? {
      OtherStands(w, luck, raw, begun, seen);
    } else {
      SurveyStands(w, luck, raw, begun, seen);
    }
  }

  lemma {:induction false} RunStands(start: World, events: seq<Happening>)
    requires start.pc.Idle?
    ensures Stands(Run(start, events), LastBegun(start, events), LastSeen(start, events))
  {
    if events != [] {
      var (before, e) := (events[..|events| - 1], events[|events| - 1]);
      RunStands(start, before);
      hide Advance;
      if e.Proceed? {
        AdvanceStands(Run(start, before), e.luck, e.raw, LastBegun(start, before), LastSeen(start, before));
      }
    }
  }

  /** The journal names the three roles in order, and each has one endpoint, its module's. */
  ghost predicate InPlace(disk: Option<Journal>, raw: RawGraph) {
    && disk.Some? && |disk.value.modules| == 3
    && forall i :: 0 <= i < 3 ==>
         var o := disk.value.modules[i]; o.role == ORDER[i] && OneOwned(raw, o.role, o.id)
  }

  lemma RolesInOrder(ms: seq<OwnedModule>)
    requires |ms| == 3 && InRoleOrder(ms)
    ensures RolesTo(ms, 3)
  {
    assert Index(ms[0].role) < Index(ms[1].role) < Index(ms[2].role);
  }

  lemma MatchesInPlace(raw: RawGraph, j: Journal)
    requires MatchesGraph(raw, j) && RolesTo(j.modules, 3)
    ensures InPlace(Some(j), raw)
  {
    hide EndpointsFor;
    var (a, b, c) := (j.modules[0].id, j.modules[1].id, j.modules[2].id);
    assert j.modules == Three(a, b, c);
    ThreeModules(a, b, c);
    assert MicOutSink in ORDER && VirtualMicSource in ORDER && RemoteInSink in ORDER;
  }

  /** The step by which setting up reports success. */
  lemma SuccessIs(w: World, luck: Luck, raw: RawGraph, g: string, seen: Option<RawGraph>)
    requires Inv(w) && Stands(w, Some(Ensure(g)), seen) && !w.pc.Idle?
    requires Advance(w, luck, raw).pc == Idle(Some(true))
    ensures var (w', last) := (Advance(w, luck, raw), if w.pc.Verifying? then raw else w.pc.raw);
            && (w.pc.HaveRaw? || w.pc.Resaving? || w.pc.Verifying?) && (w.pc.Verifying? ==> luck.Succeeds?)
            && w'.disk.Some? && Valid(w'.disk.value) && MatchesGraph(last, w'.disk.value)
            && (w.pc.Verifying? ==> w'.disk == Some(w.pc.known) && RolesTo(w.pc.known.modules, 3))
  {
    hide ModuleMatches, Loaded, MatchesGraph, HasAnyRequired, HasDuplicateRequired, With, Without, Valid, Faithful,
         OnePerRole, AllOf, Truthy, Covers, BuiltTo, Consistent, Exactly;
    if w.pc.HaveRaw? && Consistent(w.pc.raw, w.pc.known, w.stock.modules) {
      ExactlyOurs(w, w.pc.raw, w.pc.known);
    }
  }

  /** Over every run, whenever setting up reports success, the journal on disk names all three
      roles in order, and what was seen last was one endpoint for each, owned by the module
      journalled for it; a journal set up anew is of the generation asked for. */
  lemma EnsuredIsInPlace(others: Modules, nextId: ModuleId, events: seq<Happening>, luck: Luck, raw: RawGraph,
        g: string)
    requires Untouched(others, nextId) && forall e <- events :: Allowed(e)
    requires LastBegun(Boot(others, nextId), events) == Some(Ensure(g)) && !Run(Boot(others, nextId), events).pc.Idle?
    requires Advance(Run(Boot(others, nextId), events), luck, raw).pc == Idle(Some(true))
    ensures var (start, all) := (Boot(others, nextId), events + [Proceed(luck, raw)]);
            && LastSeen(start, all).Some? && InPlace(Run(start, all).disk, LastSeen(start, all).value)
            && Run(start, all) == Advance(Run(start, events), luck, raw)
            && (Run(start, events).pc.Verifying? ==> Run(start, all).disk.value.generation == g)
  {
    var (start, all) := (Boot(others, nextId), events + [Proceed(luck, raw)]);
    assert all[..|all| - 1] == events;
    RunKeepsInv(others, nextId, events);
    RunStands(start, events);
    var (w, w', seen) := (Run(start, events), Advance(Run(start, events), luck, raw), LastSeen(start, events));
    assert Run(start, all) == Step(w, Proceed(luck, raw));
    assert LastSeen(start, all) ==
           if luck.Succeeds? && (w.pc.HaveJournal? || w.pc.Rechecking? || w.pc.Verifying?) then Some(raw) else seen;
    hide Run, LastSeen, LastBegun, Inv, Advance, MatchesGraph, Allowed, Untouched;
    SuccessIs(w, luck, raw, g, seen);
    var j := w'.disk.value;
    MatchesThree(if w.pc.Verifying? then raw else w.pc.raw, j);
    RolesInOrder(j.modules);
    MatchesInPlace(if w.pc.Verifying? then raw else w.pc.raw, j);
  }

  lemma MatchesThree(raw: RawGraph, j: Journal)
    requires MatchesGraph(raw, j)
    ensures |j.modules| == 3
  {
    hide EndpointsFor, ModuleFor;
  }

  // ---- Taking back ----

  lemma RollLooks(w: World, sight: Sight)
    requires Inv(w) && w.pc.RollingBack? && w.pc.known.modules != []
    ensures var j := w.pc.known;
            Next(w, sight) == w.(pc := if Last(j).id in w.stock.modules then RollUnload(j) else RollShrink(j))
  {
    hide ModuleMatches, Faithful, OnePerRole, Journalled, Truthy;
    if Last(w.pc.known).id in w.stock.modules {
      LastRecognised(w, w.pc.known);
    }
  }

  lemma RollUnloads(w: World, sight: Sight)
    requires w.pc.RollUnload? && w.pc.known.modules != [] && Last(w.pc.known).id in w.stock.modules
    ensures Next(w, sight) == w.(pc := RollShrink(w.pc.known), stock := Without(w.stock, Last(w.pc.known).id))
  {}

  lemma RollShrinks(w: World, sight: Sight)
    requires w.pc.RollShrink? && Valid(w.pc.known) && w.pc.known.modules != []
    ensures Next(w, sight) == w.(pc := RollingBack(Popped(w.pc.known)), disk := Some(Popped(w.pc.known)))
  {
    PoppedValid(w.pc.known);
    hide Valid;
  }

  /** One module is taken back, and nothing else is touched. */
  lemma OneBack(w: World, sight: Sight) returns (n: nat)
    requires Inv(w) && w.pc.RollingBack? && Valid(w.pc.known) && w.pc.known.modules != []
    ensures var (w', j) := (Lucky(w, sight, n), w.pc.known);
            && Inv(w') && w'.pc == RollingBack(Popped(j)) && n <= 3
            && w'.stock.modules == w.stock.modules - {Last(j).id}
  {
    hide Valid, Inv, Next, Popped, Lucky;
    var j := w.pc.known;
    RollLooks(w, sight);
    LuckyThree(w, sight);
    NextKeeps(w, sight);
    var w1 := Next(w, sight);
    NextKeeps(w1, sight);
    var w2 := Next(w1, sight);
    if Last(j).id in w.stock.modules {
      RollUnloads(w1, sight);
      NextKeeps(w2, sight);
      RollShrinks(w2, sight);
      n := 3;
    } else {
      RollShrinks(w1, sight);
      assert w.stock.modules == w.stock.modules - {Last(j).id};
      n := 2;
    }
  }

  function Ids(ms: seq<OwnedModule>): set<ModuleId> {
    set o <- ms :: o.id
  }

  lemma IdsOfLast(j: Journal)
    requires j.modules != []
    ensures Ids(j.modules) == Ids(Popped(j).modules) + {Last(j).id}
  {
    assert j.modules == Popped(j).modules + [Last(j)];
    assert Last(j) in j.modules;
  }

  /** Left alone, taking back what was set up unloads exactly the journalled modules, leaves an
      empty journal of that generation, and reports failure. */
  lemma {:induction false} RollbackTakesAll(w: World, sight: Sight) returns (n: nat)
    requires Inv(w) && w.pc.RollingBack? && Valid(w.pc.known)
    ensures var (w', j) := (Lucky(w, sight, n), w.pc.known);
            && w'.pc == Idle(Some(false)) && w'.disk == Some(j.(modules := []))
            && w'.stock.modules == w.stock.modules - Ids(j.modules)
    decreases |w.pc.known.modules|
  {
    hide Inv, Lucky;
    var j := w.pc.known;
    LuckyThree(w, sight);
    if j.modules == [] {
      assert w.stock.modules == w.stock.modules - Ids(j.modules);
      n := 1;
    } else {
      hide Valid;
      var m := OneBack(w, sight);
      PoppedValid(j);
      var k := RollbackTakesAll(Lucky(w, sight, m), sight);
      LuckyMore(w, sight, m, k);
      IdsOfLast(j);
      n := m + k;
    }
  }

  // ---- Others' endpoints ----

  /** An endpoint in the way: two of one role, or one that none of the daemon's modules vouches for. */
  ghost predicate InTheWay(w: World, raw: RawGraph) {
    exists role ::
      || |EndpointsFor(raw, role)| > 1
      || (EndpointsFor(raw, role) != [] && w.disk.None?)
      || (w.disk.Some? && !Vouched(raw, role, w.stock.modules, w.disk.value.generation))
  }

  lemma RoleInOrder(role: Role)
    ensures role in ORDER
  {
    assert ORDER[0] == MicOutSink && ORDER[1] == VirtualMicSource && ORDER[2] == RemoteInSink;
  }

  /** Looking at the endpoints with one in the way, setting up gives up and touches nothing; and
      so does a clean-up when there is a journal. */
  lemma OthersLeftAlone(w: World, op: Operation, sight: Sight)
    requires Inv(w) && w.pc.Idle? && InTheWay(w, sight.first) && (op.Ensure? || w.disk.Some?)
    ensures var w' := Lucky(Step(w, Begin(op)), sight, 3); w' == w.(pc := Idle(Some(false)))
  {
    var w0 := Step(w, Begin(op));
    LuckyThree(w0, sight);
    hide Lucky, Vouched, EndpointsFor;
    assert Next(w0, sight) == w.(pc := HaveJournal(op, w.disk));
    var role :| || |EndpointsFor(sight.first, role)| > 1
                || (EndpointsFor(sight.first, role) != [] && w.disk.None?)
                || (w.disk.Some? && !Vouched(sight.first, role, w.stock.modules, w.disk.value.generation));
    RoleInOrder(role);
    if w.disk.Some? {
      RecoversIff(w, sight.first);
    }
    hide Inv, Consistent;
  }

  /** After cleaning up, an endpoint still seen stops the setting up with nothing loaded. */
  lemma StillThere(w: World, g: string, sight: Sight, role: Role)
    requires w.pc == Rechecking(g) && EndpointsFor(sight.again, role) != []
    ensures Lucky(w, sight, 1) == w.(pc := Idle(Some(false)))
  {
    LuckyThree(w, sight);
    RoleInOrder(role);
    hide EndpointsFor, Lucky;
  }

  // ---- Which endpoints count ----

  /** The endpoints of a role are the sinks, or for the virtual microphone the sources, of its
      name, each as often as it is listed. */
  lemma EndpointsIff(raw: RawGraph, e: Endpoint)
    ensures multiset(EndpointsFor(raw, MicOutSink))[e] ==
            if e.name == "translator_mic_out" then multiset(raw.sinks)[e] else 0
    ensures multiset(EndpointsFor(raw, RemoteInSink))[e] ==
            if e.name == "translator_remote_in" then multiset(raw.sinks)[e] else 0
    ensures multiset(EndpointsFor(raw, VirtualMicSource))[e] ==
            if e.name == "translator_virtual_mic" then multiset(raw.sources)[e] else 0
  {
    ValuesSpelled();
    hide ValueText;
    NamedCounts(raw.sinks, EndpointName(MicOutSink), e);
    NamedCounts(raw.sinks, EndpointName(RemoteInSink), e);
    NamedCounts(raw.sources, EndpointName(VirtualMicSource), e);
  }

  lemma {:induction false} NamedCounts(es: seq<Endpoint>, name: string, e: Endpoint)
    ensures multiset(Named(es, name))[e] == if e.name == name then multiset(es)[e] else 0
  {
    if es != [] {
      NamedCounts(es[1..], name, e);
      assert es == [es[0]] + es[1..];
    }
  }
}
