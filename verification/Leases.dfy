/** Local providers on loan: a provider that has been replaced is shut down when nobody holds
    it any more, and no sooner. */
module Leases {
  import opened Wire

  /** A provider, told from others by identity. */
  type Id = nat

  datatype Book = Book(
    current: Option<Id>,
    leases: map<Id, nat>,
    instances: set<Id>,
    retired: set<Id>)

  /** The book after an operation, and whom it shuts down. */
  datatype Turn = Turn(book: Book, shutdown: set<Id>)

  datatype Op = Acquire | Release(id: Id) | Replace(id: Id) | StopAll

  function Open(provider: Option<Id>): Book {
    match provider
    case None => Book(None, map[], {}, {})
    case Some(id) => Book(Some(id), map[id := 0], {id}, {})
  }

  function LeasesOf(b: Book, id: Id): nat {
    if id in b.leases then b.leases[id] else 0
  }

  /** Nothing to lend is an error that changes nothing. */
  function Acquired(b: Book): Turn {
    if b.current.None? then Turn(b, {})
    else
      var id := b.current.value;
      Turn(b.(instances := b.instances + {id}, leases := b.leases[id := LeasesOf(b, id) + 1]), {})
  }

  function Released(b: Book, id: Id): Turn {
    if LeasesOf(b, id) == 0 then Turn(b, {})
    else
      var n := b.leases[id] - 1;
      if n == 0 && id in b.retired
      then Turn(b.(retired := b.retired - {id}, leases := b.leases - {id}, instances := b.instances - {id}),
          {id} * b.instances)
      else Turn(b.(leases := b.leases[id := n]), {})
  }

  function Replaced(b: Book, id: Id): Turn {
    if b.current == Some(id) then Turn(b, {})
    else
      var b1 := b.(instances := b.instances + {id}, leases := if id in b.leases then b.leases
          else b.leases[id := 0], current := Some(id));
      if b.current.None? then Turn(b1, {})
      else
        var previous := b.current.value;
        if LeasesOf(b1, previous) == 0
        then Turn(b1.(retired := b1.retired - {previous}, leases := b1.leases - {previous},
            instances := b1.instances - {previous}),
                  {previous} * b1.instances)
        else Turn(b1.(retired := b1.retired + {previous}), {})
  }

  function StoppedAll(b: Book): Turn {
    Turn(Book(None, map[], {}, {}), b.instances)
  }

  function Do(b: Book, op: Op): Turn {
    match op
    case Acquire => Acquired(b)
    case Release(id) => Released(b, id)
    case Replace(id) => Replaced(b, id)
    case StopAll => StoppedAll(b)
  }

  // ---- Whole runs ----

  function Run(provider: Option<Id>, ops: seq<Op>): Book {
    if ops == [] then Open(provider) else Do(Run(provider, ops[..|ops| - 1]), ops[|ops| - 1]).book
  }

  /** Who has been installed so far. */
  function Installed(provider: Option<Id>, ops: seq<Op>): set<Id> {
    if ops == [] then (if provider.Some? then {provider.value} else {})
    else
      var op := ops[|ops| - 1];
      Installed(provider, ops[..|ops| - 1]) + if op.Replace? then {op.id} else {}
  }

  /** Who was shut down, as often as it happened. */
  function ShutDown(provider: Option<Id>, ops: seq<Op>): multiset<Id> {
    if ops == [] then multiset{}
    else ShutDown(provider, ops[..|ops| - 1]) + multiset(Do(Run(provider, ops[..|ops| - 1]), ops[|ops| - 1]).shutdown)
  }

  /** How often the provider is held: borrowed while current, less what was given back. */
  function Held(provider: Option<Id>, ops: seq<Op>, id: Id): nat {
    if ops == [] then 0
    else
      var (earlier, op) := (ops[..|ops| - 1], ops[|ops| - 1]);
      var n := Held(provider, earlier, id);
      match op
      case Acquire => if Run(provider, earlier).current == Some(id) then n + 1 else n
      case Release(x) => if x == id && n > 0 then n - 1 else n
      case Replace(_) => n
      case StopAll => 0
  }

  /** A replacement has never been installed before, unless it is the current provider. */
  ghost predicate Fresh(provider: Option<Id>, ops: seq<Op>) {
    forall i :: 0 <= i < |ops| && ops[i].Replace? ==>
      ops[i].id !in Installed(provider, ops[..i]) || Run(provider, ops[..i]).current == Some(ops[i].id)
  }

  /** Every instance is current or retired and still held; everyone else installed was shut
      down, once. */
  ghost predicate Inv(b: Book, installed: set<Id>, shutdown: multiset<Id>) {
    && b.leases.Keys == b.instances
    && b.instances <= installed
    && b.instances == b.retired + (if b.current.Some? then {b.current.value} else {})
    && (b.current.Some? ==> b.current.value !in b.retired)
    && (forall id <- b.retired :: b.leases[id] > 0)
    && (forall id :: shutdown[id] == if id in installed && id !in b.instances then 1 else 0)
  }

  lemma DoKeepsInv(b: Book, op: Op, installed: set<Id>, shutdown: multiset<Id>)
    requires Inv(b, installed, shutdown)
    requires op.Replace? ==> op.id !in installed || b.current == Some(op.id)
    ensures var t := Do(b, op);
            Inv(t.book, installed + (if op.Replace? then {op.id} else {}), shutdown + multiset(t.shutdown))
  {
    var (t, n) := (Do(b, op), if op.Replace? then {op.id} else {});
    match op
    case Acquire => assert t.book.leases.Keys == t.book.instances;
    case Release(id) => assert t.book.leases.Keys == t.book.instances;
    case Replace(id) => assert t.book.leases.Keys == t.book.instances;
    case StopAll =>
  }

  lemma {:induction false} RunKeepsInv(provider: Option<Id>, ops: seq<Op>)
    requires Fresh(provider, ops)
    ensures Inv(Run(provider, ops), Installed(provider, ops), ShutDown(provider, ops))
  {
    if ops != [] {
      hide Do, Inv;
      var (earlier, op) := (ops[..|ops| - 1], ops[|ops| - 1]);
      assert forall i :: 0 <= i < |earlier| ==> earlier[..i] == ops[..i];
      RunKeepsInv(provider, earlier);
      DoKeepsInv(Run(provider, earlier), op, Installed(provider, earlier), ShutDown(provider, earlier));
    }
  }

  /** The book's counts are the history's. */
  lemma {:induction false} LeasesAreHeld(provider: Option<Id>, ops: seq<Op>, id: Id)
    requires Fresh(provider, ops)
    ensures LeasesOf(Run(provider, ops), id) == Held(provider, ops, id)
  {
    if ops != [] {
      var (earlier, op) := (ops[..|ops| - 1], ops[|ops| - 1]);
      assert forall i :: 0 <= i < |earlier| ==> earlier[..i] == ops[..i];
      LeasesAreHeld(provider, earlier, id);
      RunKeepsInv(provider, earlier);
      LeaseStep(Run(provider, earlier), op, id, Installed(provider, earlier), ShutDown(provider, earlier));
      hide *;
    }
  }

  lemma LeaseStep(b: Book, op: Op, id: Id, installed: set<Id>, shutdown: multiset<Id>)
    requires Inv(b, installed, shutdown)
    requires op.Replace? ==> op.id !in installed || b.current == Some(op.id)
    ensures var n := LeasesOf(b, id);
            LeasesOf(Do(b, op).book, id) ==
            match op
            case Acquire => if b.current == Some(id) then n + 1 else n
            case Release(x) => if x == id && n > 0 then n - 1 else n
            case Replace(_) => n
            case StopAll => 0
  {}

  /** Over every run: nobody is shut down twice, and, until everything is stopped, a provider
      has been shut down exactly when it was installed, has been replaced, and is held by
      nobody; so a provider in use or current is never shut down, and a replaced one goes
      with its last lease, or at once if it has none. */
  lemma ShutDownExactly(provider: Option<Id>, ops: seq<Op>, id: Id)
    requires Fresh(provider, ops)
    ensures ShutDown(provider, ops)[id] <= 1
    ensures (forall op <- ops :: !op.StopAll?) ==>
              (id in ShutDown(provider, ops) <==>
                 id in Installed(provider, ops) && Run(provider, ops).current != Some(id)
                     && Held(provider, ops, id) == 0)
  {
    hide Run, Installed, ShutDown, Held, Fresh;
    RunKeepsInv(provider, ops);
    LeasesAreHeld(provider, ops, id);
  }

  /** Stopping shuts down everyone who still was not. */
  lemma StopShutsAll(provider: Option<Id>, ops: seq<Op>, id: Id)
    requires Fresh(provider, ops + [StopAll]) && Fresh(provider, ops)
    ensures ShutDown(provider, ops + [StopAll])[id] == if id in Installed(provider, ops) then 1 else 0
  {
    assert (ops + [StopAll])[..|ops|] == ops;
    RunKeepsInv(provider, ops);
    RunKeepsInv(provider, ops + [StopAll]);
  }

  // ---- The book as the server keeps it ----

  /** The server's provider fields, changed in place under one lock. Each method returns whom
      the caller then shuts down, outside the lock. */
  class ProviderServer {
    var current: Option<Id>
    var leases: map<Id, nat>
    var instances: set<Id>
    var retired: set<Id>

    function View(): Book
      reads this
    {
      Book(current, leases, instances, retired)
    }

    constructor (provider: Option<Id>)
      ensures View() == Open(provider)
    {
      current := provider;
      leases := if provider.Some? then map[provider.value := 0] else map[];
      instances := if provider.Some? then {provider.value} else {};
      retired := {};
    }

    method Acquire() returns (provider: Option<Id>)
      modifies this
      ensures View() == Acquired(old(View())).book
      ensures provider == old(current)
    {
      if current.None? {
        return None;
      }
      var id := current.value;
      instances := instances + {id};
      leases := leases[id := (if id in leases then leases[id] else 0) + 1];
      provider := Some(id);
    }

    method Release(id: Id) returns (shutdown: set<Id>)
      modifies this
      ensures Turn(View(), shutdown) == Released(old(View()), id)
    {
      if id !in leases || leases[id] == 0 {
        return {};
      }
      var n := leases[id] - 1;
      leases := leases[id := n];
      if n == 0 && id in retired {
        retired := retired - {id};
        leases := leases - {id};
        shutdown := {id} * instances;
        instances := instances - {id};
      } else {
        shutdown := {};
      }
    }

    method Replace(id: Id) returns (shutdown: set<Id>)
      modifies this
      ensures Turn(View(), shutdown) == Replaced(old(View()), id)
    {
      if current == Some(id) {
        return {};
      }
      var previous := current;
      instances := instances + {id};
      if id !in leases {
        leases := leases[id := 0];
      }
      current := Some(id);
      shutdown := {};
      if previous.Some? {
        retired := retired + {previous.value};
        if previous.value !in leases || leases[previous.value] == 0 {
          retired := retired - {previous.value};
          leases := leases - {previous.value};
          shutdown := {previous.value} * instances;
          instances := instances - {previous.value};
        }
      }
    }

    method ShutDownAll() returns (shutdown: set<Id>)
      modifies this
      ensures Turn(View(), shutdown) == StoppedAll(old(View()))
    {
      shutdown := instances;
      instances, leases, retired, current := {}, map[], {}, None;
    }
  }
}
