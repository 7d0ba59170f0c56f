/** The daemon's virtual devices as a machine of single effects: every command to the sound
    server and every write of the journal is a step of its own, may fail with or without
    having taken effect, and the daemon may crash between any two. Others load and unload
    modules of their own at any time. */
module CrashModel {
  import opened Wire
  import opened ModuleArgs
  import opened OwnershipModel

  datatype Operation = Ensure(generation: string) | Cleanup

  /** What the daemon is about to do. */
  datatype Pc =
    | Idle(returned: Option<bool>)
    | Starting(op: Operation)
    | HaveJournal(op: Operation, journal: Option<Journal>)
    | HaveRaw(op: Operation, known: Journal, raw: RawGraph)
    | Resaving(op: Operation, known: Journal, raw: RawGraph)
    | Cleaning(op: Operation, known: Journal)
    | CleanUnload(op: Operation, known: Journal)
    | CleanShrink(op: Operation, known: Journal)
    | Rechecking(generation: string)
    | CreateStart(generation: string)
    | Building(known: Journal, k: nat)
    | Recording(known: Journal, k: nat)
    | Verifying(known: Journal)
    | RollingBack(known: Journal)
    | RollUnload(known: Journal)
    | RollShrink(known: Journal)
    | RollGiveUp(known: Journal)

  /** The modules there are. Their numbers are never reused, and `made` remembers every
      module the daemon ever loaded. */
  datatype Stock = Stock(modules: Modules, nextId: ModuleId, made: map<ModuleId, (Role, string)>)

  datatype World = World(stock: Stock, disk: Option<Journal>, pc: Pc)

  /** How an effect turns out: a failed one may have taken effect all the same. */
  datatype Luck = Succeeds | FailsDone | FailsUndone

  datatype Happening =
    | Begin(op: Operation)
    | Proceed(luck: Luck, raw: RawGraph)
    | Crash
    | OthersLoad(m: PactlModule)
    | OthersUnload(id: ModuleId)

  /** Only the daemon marks modules as its own. */
  predicate Allowed(e: Happening) {
    e.OthersLoad? ==> !Tagged(e.m)
  }

  function Return(w: World, ok: bool): World {
    w.(pc := Idle(Some(ok)))
  }

  // ---- Single effects ----

  function Save(w: World, j: Journal, luck: Luck): World {
    if Valid(j) && !luck.FailsUndone? then w.(disk := Some(j)) else w
  }

  predicate SaveOk(j: Journal, luck: Luck) {
    Valid(j) && luck.Succeeds?
  }

  function Remove(w: World, luck: Luck): World {
    if luck.FailsUndone? then w else w.(disk := None)
  }

  function Without(s: Stock, id: ModuleId): Stock {
    s.(modules := s.modules - {id})
  }

  function Unload(w: World, id: ModuleId, luck: Luck): World {
    if luck.FailsUndone? then w else w.(stock := Without(w.stock, id))
  }

  /** There must be a module to unload. */
  predicate UnloadOk(w: World, id: ModuleId, luck: Luck) {
    id in w.stock.modules && luck.Succeeds?
  }

  function With(s: Stock, role: Role, g: string): Stock {
    Stock(s.modules[s.nextId := Loaded(role, g)], s.nextId + 1, s.made[s.nextId := (role, g)])
  }

  function WithOther(s: Stock, m: PactlModule): Stock {
    s.(modules := s.modules[s.nextId := m], nextId := s.nextId + 1)
  }

  function Load(w: World, role: Role, g: string, luck: Luck): World {
    if luck.FailsUndone? then w
    else w.(stock := With(w.stock, role, g))
  }

  function Popped(j: Journal): Journal
    requires j.modules != []
  {
    j.(modules := j.modules[..|j.modules| - 1])
  }

  function Last(j: Journal): OwnedModule
    requires j.modules != []
  {
    j.modules[|j.modules| - 1]
  }

  // ---- Where to go next ----

  function AfterResave(w: World, op: Operation, j: Journal, raw: RawGraph): World {
    if op.Ensure? && MatchesGraph(raw, j) then Return(w, true) else w.(pc := Cleaning(op, j))
  }

  ghost function Reconciled(w: World, op: Operation, j: Journal, raw: RawGraph): World {
    if !Consistent(raw, j, w.stock.modules) then Return(w, false)
    else
      var r := Exactly(w.stock.modules, j.generation);
      if r != j then w.(pc := Resaving(op, r, raw)) else AfterResave(w, op, r, raw)
  }

  function Surveyed(w: World, op: Operation, journal: Option<Journal>, raw: RawGraph): World {
    if HasDuplicateRequired(raw) then Return(w, false)
    else
      match journal
      case Some(j) => w.(pc := HaveRaw(op, j, raw))
      case None =>
        if op.Ensure? && !HasAnyRequired(raw) then w.(pc := CreateStart(op.generation)) else Return(w, false)
  }

  /** What looking at the last journalled module decides. */
  function Inspected(w: World, j: Journal, there: Pc, gone: Pc, wrong: Pc): World
    requires j.modules != []
  {
    if Last(j).id !in w.stock.modules then w.(pc := gone)
    else if ModuleMatches(Last(j).role, w.stock.modules[Last(j).id], j.generation) then w.(pc := there)
    else w.(pc := wrong)
  }

  function Clean(w: World, op: Operation, j: Journal, luck: Luck): World {
    if j.modules == [] then
      var w1 := Remove(w, luck);
      if !luck.Succeeds? then Return(w1, false)
      else if op.Ensure? then w1.(pc := Rechecking(op.generation)) else Return(w1, true)
    else if !luck.Succeeds? then Return(w, false)
    else Inspected(w, j, CleanUnload(op, j), CleanShrink(op, j), Idle(Some(false)))
  }

  function Shrink(w: World, op: Operation, j: Journal, luck: Luck): World
    requires j.modules != []
  {
    var j1 := Popped(j);
    var (w1, ok) := if j1.modules == [] then (Remove(w, luck), luck.Succeeds?)
        else (Save(w, j1, luck), SaveOk(j1, luck));
    if ok then w1.(pc := Cleaning(op, j1)) else Return(w1, false)
  }

  function Build(w: World, j: Journal, k: nat, luck: Luck): World {
    if k >= |ORDER| then w.(pc := Verifying(j))
    else
      var w1 := Load(w, ORDER[k], j.generation, luck);
      var modules := j.modules + [OwnedModule(ORDER[k], w.stock.nextId)];
      if luck.Succeeds? then w1.(pc := Recording(j.(modules := modules), k + 1))
      else w1.(pc := RollingBack(j))
  }

  function RollBack(w: World, j: Journal, luck: Luck): World {
    if j.modules == [] then Return(Save(w, j, luck), false)
    else if !luck.Succeeds? then Return(w, false)
    else Inspected(w, j, RollUnload(j), RollShrink(j), RollGiveUp(j))
  }

  /** The daemon's next effect. Impossible places do nothing. */
  ghost function Advance(w: World, luck: Luck, raw: RawGraph): World {
    match w.pc
    case Idle(_) => w
    case Starting(op) =>
      if !luck.Succeeds? then Return(w, false)
      else if op.Cleanup? && w.disk.None? then Return(w, true)
      else w.(pc := HaveJournal(op, w.disk))
    case HaveJournal(op, journal) => if luck.Succeeds? then Surveyed(w, op, journal, raw) else Return(w, false)
    case HaveRaw(op, j, seen) => if luck.Succeeds? then Reconciled(w, op, j, seen) else Return(w, false)
    case Resaving(op, j, seen) =>
      var w1 := Save(w, j, luck);
      if SaveOk(j, luck) then AfterResave(w1, op, j, seen) else Return(w1, false)
    case Cleaning(op, j) => Clean(w, op, j, luck)
    case CleanUnload(op, j) =>
      if j.modules == [] then w
      else
        var w1 := Unload(w, Last(j).id, luck);
        if UnloadOk(w, Last(j).id, luck) then w1.(pc := CleanShrink(op, j)) else Return(w1, false)
    case CleanShrink(op, j) => if j.modules == [] then w else Shrink(w, op, j, luck)
    case Rechecking(g) =>
      if luck.Succeeds? && !HasAnyRequired(raw) then w.(pc := CreateStart(g)) else Return(w, false)
    case CreateStart(g) =>
      var w1 := Save(w, Empty(g), luck);
      if SaveOk(Empty(g), luck) then w1.(pc := Building(Empty(g), 0)) else Return(w1, false)
    case Building(j, k) => Build(w, j, k, luck)
    case Recording(j, k) =>
      var w1 := Save(w, j, luck);
      if SaveOk(j, luck) then w1.(pc := Building(j, k)) else w1.(pc := RollingBack(j))
    case Verifying(j) =>
      if luck.Succeeds? && MatchesGraph(raw, j) then Return(w, true) else w.(pc := RollingBack(j))
    case RollingBack(j) => RollBack(w, j, luck)
    case RollUnload(j) =>
      if j.modules == [] then w
      else
        var w1 := Unload(w, Last(j).id, luck);
        if UnloadOk(w, Last(j).id, luck) then w1.(pc := RollShrink(j)) else w1.(pc := RollGiveUp(j))
    case RollShrink(j) =>
      if j.modules == [] then w
      else
        var w1 := Save(w, Popped(j), luck);
        if SaveOk(Popped(j), luck) then w1.(pc := RollingBack(Popped(j))) else Return(w1, false)
    case RollGiveUp(j) => Return(Save(w, j, luck), false)
  }

  ghost function Step(w: World, e: Happening): World {
    match e
    case Begin(op) => if w.pc.Idle? then w.(pc := Starting(op)) else w
    case Proceed(luck, raw) => Advance(w, luck, raw)
    case Crash => w.(pc := Idle(None))
    case OthersLoad(m) => w.(stock := WithOther(w.stock, m))
    case OthersUnload(id) => w.(stock := Without(w.stock, id))
  }

  function Boot(others: Modules, nextId: ModuleId): World {
    World(Stock(others, nextId, map[]), None, Idle(None))
  }

  ghost function Run(start: World, events: seq<Happening>): World {
    if events == [] then start else Step(Run(start, events[..|events| - 1]), events[|events| - 1])
  }
}
