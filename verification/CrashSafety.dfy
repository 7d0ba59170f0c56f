/** Whatever fails and wherever the daemon crashes: a live module with the daemon's mark
    always has a journal of its generation on disk, a clean-up that reports success leaves
    neither, and no module is unloaded that the daemon did not load for that very role. */
module CrashSafety {
  import opened Wire
  import opened ModuleArgs
  import opened OwnershipModel
  import opened CrashModel

  /** A live module that the daemon loaded. */
  predicate Ours(s: Stock, id: ModuleId) {
    id in s.modules && id in s.made
  }

  /** What is there is what was loaded, and the mark tells the daemon's modules from others. */
  ghost predicate Faithful(s: Stock) {
    && (forall id <- s.modules :: id < s.nextId)
    && (forall id <- s.made :: id < s.nextId && ValidGeneration(s.made[id].1))
    && (forall id <- s.modules :: Tagged(s.modules[id]) <==> id in s.made)
    && (forall id :: Ours(s, id) ==> s.modules[id] == Loaded(s.made[id].0, s.made[id].1))
  }

  /** Every live module of ours is of this generation. */
  ghost predicate AllOf(s: Stock, g: string) {
    forall id :: Ours(s, id) ==> s.made[id].1 == g
  }

  ghost predicate NoneOurs(s: Stock) {
    forall id :: !Ours(s, id)
  }

  ghost predicate OnePerRole(s: Stock) {
    forall a, b :: Ours(s, a) && Ours(s, b) && s.made[a].0 == s.made[b].0 ==> a == b
  }

  /** What the journal says of a module is so, as long as the module is there. */
  predicate EntryTrue(s: Stock, o: OwnedModule, g: string) {
    o.id < s.nextId && (o.id in s.modules ==> o.id in s.made && s.made[o.id] == (o.role, g))
  }

  ghost predicate Truthy(s: Stock, j: Journal) {
    forall o <- j.modules :: EntryTrue(s, o, j.generation)
  }

  /** The journal has every live module of ours. */
  ghost predicate Covers(s: Stock, j: Journal) {
    forall id :: Ours(s, id) ==> OwnedModule(s.made[id].0, id) in j.modules
  }

  /** The disk: a live module of ours always has a journal of its generation. */
  ghost predicate Journalled(s: Stock, disk: Option<Journal>) {
    match disk
    case None => NoneOurs(s)
    case Some(j) => Valid(j) && AllOf(s, j.generation) && Truthy(s, j)
  }

  ghost predicate OnDisk(disk: Option<Journal>, g: string) {
    disk.Some? && disk.value.generation == g
  }

  /** A journal in the daemon's hands while it works on that generation. */
  ghost predicate Held(w: World, j: Journal) {
    OnDisk(w.disk, j.generation) && Truthy(w.stock, j)
  }

  ghost predicate BuiltTo(s: Stock, k: nat) {
    forall id :: Ours(s, id) ==> Index(s.made[id].0) < k
  }

  ghost predicate Placed(w: World) {
    match w.pc
    case Idle(_) => true
    case Starting(_) => true
    case HaveJournal(op, journal) => journal == w.disk
    case HaveRaw(op, j, _) => w.disk == Some(j)
    case Resaving(_, j, _) => Held(w, j) && Covers(w.stock, j)
    case Cleaning(_, j) =>
      (Held(w, j) && Covers(w.stock, j)) || (j.modules == [] && w.disk.None?)
    case CleanUnload(_, j) => Held(w, j) && Covers(w.stock, j) && j.modules != []
    case CleanShrink(_, j) => Held(w, j) && j.modules != [] && Covers(w.stock, Popped(j))
    case Rechecking(_) => NoneOurs(w.stock)
    case CreateStart(_) => NoneOurs(w.stock)
    case Building(j, k) => Held(w, j) && BuiltTo(w.stock, k)
    case Recording(j, k) => Held(w, j) && BuiltTo(w.stock, k)
    case Verifying(j) => Held(w, j)
    case RollingBack(j) => Held(w, j)
    case RollUnload(j) => Held(w, j) && j.modules != []
    case RollShrink(j) => Held(w, j) && j.modules != []
    case RollGiveUp(j) => Held(w, j)
  }

  /** What holds wherever the daemon is. */
  ghost predicate Sound(s: Stock, disk: Option<Journal>) {
    Faithful(s) && OnePerRole(s) && Journalled(s, disk)
  }

  ghost predicate Inv(w: World) {
    Sound(w.stock, w.disk) && Placed(w)
  }

  // ---- Single effects keep what matters ----

  lemma SaveSound(w: World, j: Journal, luck: Luck)
    requires Sound(w.stock, w.disk) && Truthy(w.stock, j) && (OnDisk(w.disk, j.generation) || NoneOurs(w.stock))
    ensures var w' := Save(w, j, luck);
            && Sound(w'.stock, w'.disk) && w'.stock == w.stock
            && (OnDisk(w.disk, j.generation) || SaveOk(j, luck) ==> OnDisk(w'.disk, j.generation))
  {}

  lemma RemoveSound(w: World, luck: Luck)
    requires Sound(w.stock, w.disk) && NoneOurs(w.stock)
    ensures Sound(w.stock, Remove(w, luck).disk)
  {}

  /** Taking a module away, whoever does it, keeps everything. */
  lemma WithoutSound(s: Stock, disk: Option<Journal>, id: ModuleId)
    requires Sound(s, disk)
    ensures var s' := Without(s, id);
            && Sound(s', disk) && (NoneOurs(s) ==> NoneOurs(s'))
            && (forall j :: Truthy(s, j) ==> Truthy(s', j))
            && (forall j :: Covers(s, j) ==> Covers(s', j))
            && (forall k :: BuiltTo(s, k) ==> BuiltTo(s', k))
  {
    hide Valid, Tagged, Loaded, ValidGeneration;
    var s' := Without(s, id);
    assert forall x :: Ours(s', x) ==> Ours(s, x);
    assert forall o, g :: EntryTrue(s, o, g) ==> EntryTrue(s', o, g);
  }

  lemma OthersUnloadKeeps(w: World, id: ModuleId)
    requires Inv(w)
    ensures Inv(Step(w, OthersUnload(id)))
  {
    hide Sound, Truthy, Covers, BuiltTo, NoneOurs, Without;
    WithoutSound(w.stock, w.disk, id);
  }

  lemma WithOtherSound(s: Stock, disk: Option<Journal>, m: PactlModule)
    requires Sound(s, disk) && !Tagged(m)
    ensures var s' := WithOther(s, m);
            && Sound(s', disk) && (NoneOurs(s) ==> NoneOurs(s'))
            && (forall j :: Truthy(s, j) ==> Truthy(s', j))
            && (forall j :: Covers(s, j) ==> Covers(s', j))
            && (forall k :: BuiltTo(s, k) ==> BuiltTo(s', k))
  {
    hide Valid, Tagged, Loaded, ValidGeneration;
    var s' := WithOther(s, m);
    assert s.nextId !in s.made && s.nextId !in s.modules;
    assert forall x :: Ours(s', x) <==> Ours(s, x);
    assert forall o, g :: EntryTrue(s, o, g) ==> EntryTrue(s', o, g);
  }

  lemma OthersLoadKeeps(w: World, m: PactlModule)
    requires Inv(w) && !Tagged(m)
    ensures Inv(Step(w, OthersLoad(m)))
  {
    hide Sound, Truthy, Covers, BuiltTo, NoneOurs, WithOther, Tagged;
    WithOtherSound(w.stock, w.disk, m);
  }

  /** Loading the next role's module. */
  lemma WithSound(s: Stock, disk: Option<Journal>, k: nat, g: string)
    requires Sound(s, disk) && OnDisk(disk, g) && k < |ORDER| && BuiltTo(s, k)
    ensures var s' := With(s, ORDER[k], g);
            && Sound(s', disk) && BuiltTo(s', k + 1)
            && (forall j :: Truthy(s, j) ==> Truthy(s', j))
            && EntryTrue(s', OwnedModule(ORDER[k], s.nextId), g)
  {
    hide Tagged, Loaded, ValidGeneration, ModuleMatches, ClaimedRole, InRoleOrder, NoIdTwice;
    var (s', role) := (With(s, ORDER[k], g), ORDER[k]);
    RecognisedOnlyAs(role, g, role, g);
    assert s.nextId !in s.made && s.nextId !in s.modules;
    assert forall x :: Ours(s', x) <==> Ours(s, x) || x == s.nextId;
    assert forall o, h :: EntryTrue(s, o, h) ==> EntryTrue(s', o, h);
  }

  // ---- What the journal says can be relied on ----

  /** A live module of ours is recognised, and nothing else is. */
  lemma LiveIsOurs(s: Stock, role: Role, g: string, id: ModuleId)
    requires Faithful(s)
    ensures Live(s.modules, role, g, id) <==> Ours(s, id) && s.made[id] == (role, g)
  {
    if Ours(s, id) {
      RecognisedOnlyAs(s.made[id].0, s.made[id].1, role, g);
    }
    hide Loaded, Arguments, KeyText, ValueText, ModuleName;
  }

  lemma ExactlyOurs(w: World, raw: RawGraph, j: Journal)
    requires Sound(w.stock, w.disk) && w.disk == Some(j) && Consistent(raw, j, w.stock.modules)
    ensures var r := Exactly(w.stock.modules, j.generation);
            Held(w, r) && Covers(w.stock, r) && Valid(r)
  {
    hide Live, Tagged, Loaded, ValidGeneration, Truthful, NoImpostor, Vouched, LiveIds, Found;
    var (s, g) := (w.stock, j.generation);
    ExactlyIs(s.modules, g);
    forall role, id ensures Live(s.modules, role, g, id) <==> Ours(s, id) && s.made[id] == (role, g) {
      LiveIsOurs(s, role, g, id);
    }
  }

  /** Once the last journalled module is gone, the rest of the journal covers what is left. */
  lemma PoppedCovers(s: Stock, j: Journal)
    requires j.modules != [] && Covers(s, j) && Last(j).id !in s.modules
    ensures Covers(s, Popped(j))
  {}

  lemma PoppedTruthy(s: Stock, j: Journal)
    requires j.modules != [] && Truthy(s, j)
    ensures Truthy(s, Popped(j))
  {
    assert forall o <- Popped(j).modules :: o in j.modules;
  }

  lemma EmptyCovers(s: Stock, j: Journal)
    requires j.modules == [] && Covers(s, j)
    ensures NoneOurs(s)
  {}

  // ---- Every step of the daemon ----

  lemma CleanKeeps(w: World, luck: Luck)
    requires Inv(w) && w.pc.Cleaning?
    ensures Inv(Clean(w, w.pc.op, w.pc.known, luck))
  {
    hide Sound, Truthy, Covers, NoneOurs, ModuleMatches;
    var j := w.pc.known;
    if j.modules == [] {
      if w.disk.None? { UnjournalledNone(w.stock, w.disk); } else { EmptyCovers(w.stock, j); }
      RemoveSound(w, luck);
    } else if Last(j).id !in w.stock.modules {
      PoppedCovers(w.stock, j);
    }
  }

  lemma UnjournalledNone(s: Stock, disk: Option<Journal>)
    requires Sound(s, disk) && disk.None?
    ensures NoneOurs(s)
  {}

  lemma CleanUnloadKeeps(w: World, luck: Luck, raw: RawGraph)
    requires Inv(w) && w.pc.CleanUnload?
    ensures Inv(Advance(w, luck, raw))
  {
    hide Sound, Truthy, Covers, NoneOurs, BuiltTo;
    var j := w.pc.known;
    WithoutSound(w.stock, w.disk, Last(j).id);
    PoppedCovers(Without(w.stock, Last(j).id), j);
  }

  lemma ShrinkKeeps(w: World, luck: Luck)
    requires Inv(w) && w.pc.CleanShrink?
    ensures w.pc.known.modules != [] && Inv(Shrink(w, w.pc.op, w.pc.known, luck))
  {
    hide Sound, Truthy, Covers, NoneOurs, Valid;
    var j := w.pc.known;
    PoppedTruthy(w.stock, j);
    if Popped(j).modules == [] {
      EmptyCovers(w.stock, Popped(j));
      RemoveSound(w, luck);
    } else {
      SaveSound(w, Popped(j), luck);
    }
  }

  lemma BuildKeeps(w: World, luck: Luck)
    requires Inv(w) && w.pc.Building?
    ensures Inv(Build(w, w.pc.known, w.pc.k, luck))
  {
    hide Sound, BuiltTo, With;
    var (j, k) := (w.pc.known, w.pc.k);
    if k < |ORDER| {
      WithSound(w.stock, w.disk, k, j.generation);
    }
  }

  lemma CreateKeeps(w: World, luck: Luck, raw: RawGraph)
    requires Inv(w) && w.pc.CreateStart?
    ensures Inv(Advance(w, luck, raw))
  {
    hide Sound, Valid;
    SaveSound(w, Empty(w.pc.generation), luck);
  }

  lemma RecordKeeps(w: World, luck: Luck, raw: RawGraph)
    requires Inv(w) && (w.pc.Recording? || w.pc.RollGiveUp? || w.pc.Verifying?)
    ensures Inv(Advance(w, luck, raw))
  {
    hide Sound, Truthy, BuiltTo, Valid, MatchesGraph;
    SaveSound(w, w.pc.known, luck);
  }

  lemma RollBackKeeps(w: World, luck: Luck)
    requires Inv(w) && w.pc.RollingBack?
    ensures Inv(RollBack(w, w.pc.known, luck))
  {
    hide Sound, Truthy, Valid, ModuleMatches;
    SaveSound(w, w.pc.known, luck);
  }

  lemma RollUnloadKeeps(w: World, luck: Luck, raw: RawGraph)
    requires Inv(w) && w.pc.RollUnload?
    ensures Inv(Advance(w, luck, raw))
  {
    hide Sound, Truthy, Covers, NoneOurs, BuiltTo;
    WithoutSound(w.stock, w.disk, Last(w.pc.known).id);
  }

  lemma RollShrinkKeeps(w: World, luck: Luck, raw: RawGraph)
    requires Inv(w) && w.pc.RollShrink?
    ensures Inv(Advance(w, luck, raw))
  {
    hide Sound, Truthy, Valid;
    PoppedTruthy(w.stock, w.pc.known);
    SaveSound(w, Popped(w.pc.known), luck);
  }

  lemma SurveyKeeps(w: World, luck: Luck, raw: RawGraph)
    requires Inv(w) && (w.pc.Idle? || w.pc.Starting? || w.pc.HaveJournal? || w.pc.Rechecking?)
    ensures Inv(Advance(w, luck, raw))
  {
    hide HasDuplicateRequired, HasAnyRequired, Faithful, OnePerRole, Valid;
  }

  lemma ReconcileKeeps(w: World, luck: Luck, raw: RawGraph)
    requires Inv(w) && w.pc.HaveRaw?
    ensures Inv(Advance(w, luck, raw))
  {
    hide Sound, Consistent, Exactly, MatchesGraph, Truthy, Covers, Valid;
    if Consistent(w.pc.raw, w.pc.known, w.stock.modules) {
      ExactlyOurs(w, w.pc.raw, w.pc.known);
    }
  }

  lemma ResaveKeeps(w: World, luck: Luck, raw: RawGraph)
    requires Inv(w) && w.pc.Resaving?
    ensures Inv(Advance(w, luck, raw))
  {
    hide Sound, MatchesGraph, Truthy, Covers, Valid;
    SaveSound(w, w.pc.known, luck);
  }

  lemma AdvanceKeeps(w: World, luck: Luck, raw: RawGraph)
    requires Inv(w)
    ensures Inv(Advance(w, luck, raw))
  {
    hide Inv, Advance, Clean, Shrink, Build, RollBack;
    AdvanceIs(w, luck, raw);
    match w.pc
    case HaveRaw(_, _, _) => ReconcileKeeps(w, luck, raw);
    case Resaving(_, _, _) => ResaveKeeps(w, luck, raw);
    case Cleaning(_, _) => CleanKeeps(w, luck);
    case CleanUnload(_, _) => CleanUnloadKeeps(w, luck, raw);
    case CleanShrink(_, _) => ShrinkKeeps(w, luck);
    case CreateStart(_) => CreateKeeps(w, luck, raw);
    case Building(_, _) => BuildKeeps(w, luck);
    case RollingBack(_) => RollBackKeeps(w, luck);
    case RollUnload(_) => RollUnloadKeeps(w, luck, raw);
    case RollShrink(_) => RollShrinkKeeps(w, luck, raw);
    case Recording(_, _) => RecordKeeps(w, luck, raw);
    case RollGiveUp(_) => RecordKeeps(w, luck, raw);
    case Verifying(_) => RecordKeeps(w, luck, raw);
    case _ => SurveyKeeps(w, luck, raw);
  }

  lemma AdvanceIs(w: World, luck: Luck, raw: RawGraph)
    ensures w.pc.Cleaning? ==> Advance(w, luck, raw) == Clean(w, w.pc.op, w.pc.known, luck)
    ensures w.pc.CleanShrink? && w.pc.known.modules != [] ==>
              Advance(w, luck, raw) == Shrink(w, w.pc.op, w.pc.known, luck)
    ensures w.pc.Building? ==> Advance(w, luck, raw) == Build(w, w.pc.known, w.pc.k, luck)
    ensures w.pc.RollingBack? ==> Advance(w, luck, raw) == RollBack(w, w.pc.known, luck)
  {
    hide Clean, Shrink, Build, RollBack, Save, Remove, Unload, Consistent, Exactly, MatchesGraph, HasAnyRequired,
         HasDuplicateRequired;
  }

  // ---- The theorems, for every run ----

  /** Before the daemon first starts there are modules of others only. */
  ghost predicate Untouched(others: Modules, nextId: ModuleId) {
    forall id <- others :: id < nextId && !Tagged(others[id])
  }

  lemma {:induction false} RunKeepsInv(others: Modules, nextId: ModuleId, events: seq<Happening>)
    requires Untouched(others, nextId) && forall e <- events :: Allowed(e)
    ensures Inv(Run(Boot(others, nextId), events))
  {
    hide Inv, Step, Boot, Untouched, Allowed;
    if events == [] {
      BootKeeps(others, nextId);
    } else {
      var (before, e) := (events[..|events| - 1], events[|events| - 1]);
      RunKeepsInv(others, nextId, before);
      StepKeeps(Run(Boot(others, nextId), before), e);
    }
  }

  lemma BootKeeps(others: Modules, nextId: ModuleId)
    requires Untouched(others, nextId)
    ensures Inv(Boot(others, nextId))
  {
    hide Tagged;
  }

  lemma StepKeeps(w: World, e: Happening)
    requires Inv(w) && Allowed(e)
    ensures Inv(Step(w, e))
  {
    match e
    case Proceed(luck, raw) => AdvanceKeeps(w, luck, raw); hide *;
    case OthersLoad(m) => OthersLoadKeeps(w, m); hide *;
    case OthersUnload(id) => OthersUnloadKeeps(w, id); hide *;
    case _ => hide Sound;
  }

  /** At every moment, a live module with the daemon's mark bears the generation of the
      journal on disk. */
  lemma MarkedIsJournalled(others: Modules, nextId: ModuleId, events: seq<Happening>, id: ModuleId)
    requires Untouched(others, nextId) && forall e <- events :: Allowed(e)
    ensures var w := Run(Boot(others, nextId), events);
            id in w.stock.modules && Tagged(w.stock.modules[id]) ==>
              w.disk.Some? && Valid(w.disk.value) && Owned(Arguments(w.stock.modules[id]), w.disk.value.generation)
  {
    RunKeepsInv(others, nextId, events);
    hide Run, Arguments, Loaded, KeyText, ValueText;
    var w := Run(Boot(others, nextId), events);
    if Ours(w.stock, id) {
      LoadedHas(w.stock.made[id].0, w.stock.made[id].1);
    }
  }

  /** The step by which a clean-up reports success. */
  predicate CleansUp(w: World, w': World) {
    (w.pc.Starting? || w.pc.Cleaning?) && w.pc.op.Cleanup? && w'.pc == Idle(Some(true))
  }

  /** A clean-up that reports success leaves no module with the mark, and no journal. */
  lemma CleanupLeavesNothing(others: Modules, nextId: ModuleId, events: seq<Happening>, luck: Luck, raw: RawGraph,
        id: ModuleId)
    requires Untouched(others, nextId) && forall e <- events :: Allowed(e)
    requires CleansUp(Run(Boot(others, nextId), events), Advance(Run(Boot(others, nextId), events), luck, raw))
    ensures var w := Advance(Run(Boot(others, nextId), events), luck, raw);
            w.disk.None? && (id in w.stock.modules ==> !Tagged(w.stock.modules[id]))
  {
    RunKeepsInv(others, nextId, events);
    var w := Run(Boot(others, nextId), events);
    AdvanceKeeps(w, luck, raw);
    hide Run, Tagged, ModuleMatches, Valid, Loaded;
    assert Advance(w, luck, raw).disk.None?;
    assert !Ours(Advance(w, luck, raw).stock, id);
  }

  /** Whatever module the daemon unloads was loaded by it: it matches the journalled role
      and the generation on disk at that very moment, not only when it was last looked at. */
  lemma UnloadsOnlyItsOwn(others: Modules, nextId: ModuleId, events: seq<Happening>, luck: Luck, raw: RawGraph,
        id: ModuleId)
    requires Untouched(others, nextId) && forall e <- events :: Allowed(e)
    requires id in Run(Boot(others, nextId), events).stock.modules
    requires id !in Advance(Run(Boot(others, nextId), events), luck, raw).stock.modules
    ensures var w := Run(Boot(others, nextId), events);
            && (w.pc.CleanUnload? || w.pc.RollUnload?) && w.pc.known.modules != [] && id == Last(w.pc.known).id
            && ModuleMatches(Last(w.pc.known).role, w.stock.modules[id], w.pc.known.generation)
            && OnDisk(w.disk, w.pc.known.generation)
  {
    RunKeepsInv(others, nextId, events);
    hide Run;
    UnloadsOwn(Run(Boot(others, nextId), events), luck, raw, id);
  }

  lemma UnloadsOwn(w: World, luck: Luck, raw: RawGraph, id: ModuleId)
    requires Inv(w) && id in w.stock.modules && id !in Advance(w, luck, raw).stock.modules
    ensures (w.pc.CleanUnload? || w.pc.RollUnload?) && w.pc.known.modules != [] && id == Last(w.pc.known).id
    ensures ModuleMatches(Last(w.pc.known).role, w.stock.modules[id], w.pc.known.generation)
    ensures OnDisk(w.disk, w.pc.known.generation)
  {
    OnlyUnloads(w, luck, raw, id);
    hide Advance, ModuleMatches, Tagged, Loaded, Valid;
    LastRecognised(w, w.pc.known);
  }

  lemma OnlyUnloads(w: World, luck: Luck, raw: RawGraph, id: ModuleId)
    requires id in w.stock.modules && id !in Advance(w, luck, raw).stock.modules
    ensures (w.pc.CleanUnload? || w.pc.RollUnload?) && w.pc.known.modules != [] && id == Last(w.pc.known).id
  {
    hide ModuleMatches, Valid, Loaded, Consistent, Exactly, MatchesGraph, HasAnyRequired, HasDuplicateRequired;
  }

  /** After any crash, reconciling succeeds if and only if every endpoint seen belongs to one
      of the daemon's modules: its own past never stands in the way. */
  lemma RecoversIff(w: World, raw: RawGraph)
    requires Inv(w) && w.disk.Some?
    ensures Consistent(raw, w.disk.value, w.stock.modules) <==>
              forall role :: Vouched(raw, role, w.stock.modules, w.disk.value.generation)
  {
    hide Vouched, Tagged, Loaded, ModuleMatches, ClaimedRole, Placed;
    var (s, j) := (w.stock, w.disk.value);
    var g := j.generation;
    forall role, id ensures Live(s.modules, role, g, id) <==> Ours(s, id) && s.made[id] == (role, g) {
      LiveIsOurs(s, role, g, id);
    }
    forall role ensures |LiveIds(s.modules, role, g)| <= 1 {
      OneAtMost(LiveIds(s.modules, role, g));
    }
    forall id <- s.modules ensures Genuine(s.modules[id], g) {
      GenuineAll(s, g, id);
    }
    forall o <- j.modules | o.id in s.modules ensures ModuleMatches(o.role, s.modules[o.id], g) {
      assert EntryTrue(s, o, g);
      assert Live(s.modules, o.role, g, o.id);
    }
  }

  lemma GenuineAll(s: Stock, g: string, id: ModuleId)
    requires Faithful(s) && id in s.modules
    ensures Genuine(s.modules[id], g)
  {
    if Ours(s, id) {
      RecognisedOnlyAs(s.made[id].0, s.made[id].1, s.made[id].0, g);
    }
    hide Loaded, Arguments, KeyText, ValueText, ModuleMatches;
  }

  /** The last journalled module, if it is there, is recognised. */
  lemma LastRecognised(w: World, j: Journal)
    requires Faithful(w.stock) && Truthy(w.stock, j) && j.modules != [] && Last(j).id in w.stock.modules
    ensures ModuleMatches(Last(j).role, w.stock.modules[Last(j).id], j.generation)
  {
    hide ModuleMatches, Loaded, Tagged;
    var o := Last(j);
    assert EntryTrue(w.stock, o, j.generation);
    LiveIsOurs(w.stock, o.role, j.generation, o.id);
  }
}
