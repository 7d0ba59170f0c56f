/** The journal of modules the daemon has loaded, and how it is brought into line with the
    modules that are actually there. */
module OwnershipModel {
  import opened Wire
  import opened ModuleArgs

  const JOURNAL_SCHEMA_VERSION: nat := 1

  type ModuleId = nat

  datatype OwnedModule = OwnedModule(role: Role, id: ModuleId)
  datatype Journal = Journal(version: nat, generation: string, modules: seq<OwnedModule>)

  datatype Endpoint = Endpoint(index: nat, name: string, owner: ModuleId)
  datatype RawGraph = RawGraph(sinks: seq<Endpoint>, sources: seq<Endpoint>)

  type Modules = map<ModuleId, PactlModule>

  function Empty(generation: string): Journal {
    Journal(JOURNAL_SCHEMA_VERSION, generation, [])
  }

  predicate InRoleOrder(ms: seq<OwnedModule>) {
    forall i, j :: 0 <= i < j < |ms| ==> Index(ms[i].role) < Index(ms[j].role)
  }

  predicate NoIdTwice(ms: seq<OwnedModule>) {
    forall i, j :: 0 <= i < j < |ms| ==> ms[i].id != ms[j].id
  }

  /** What a journal on disk must be: at most one module to a role, in role order, none twice. */
  predicate Valid(j: Journal) {
    && j.version == JOURNAL_SCHEMA_VERSION && ValidGeneration(j.generation)
    && |j.modules| <= 3 && InRoleOrder(j.modules) && NoIdTwice(j.modules)
  }

  method Validate(j: Journal) returns (ok: bool)
    ensures ok <==> Valid(j)
  {
    if j.version != JOURNAL_SCHEMA_VERSION || !ValidGeneration(j.generation) || |j.modules| > 3 {
      return false;
    }
    var previous: Option<nat> := None;
    for i := 0 to |j.modules|
      invariant InRoleOrder(j.modules[..i]) && NoIdTwice(j.modules[..i])
      invariant previous == if i == 0 then None else Some(Index(j.modules[i - 1].role))
    {
      var m := j.modules[i];
      if (previous.Some? && previous.value >= Index(m.role)) || exists x <- j.modules[..i] :: x.id == m.id {
        if previous.Some? && previous.value >= Index(m.role) {
          assert Index(j.modules[i - 1].role) >= Index(j.modules[i].role);
        } else {
          var x :| x in j.modules[..i] && x.id == m.id;
          var k :| 0 <= k < i && j.modules[k] == x;
          assert j.modules[k].id == j.modules[i].id;
        }
        return false;
      }
      assert j.modules[..i + 1] == j.modules[..i] + [m];
      forall k | 0 <= k < i
        ensures Index(j.modules[k].role) < Index(m.role) && j.modules[k].id != m.id
      {
        assert j.modules[k] in j.modules[..i];
        assert j.modules[..i][i - 1] == j.modules[i - 1];
      }
      previous := Some(Index(m.role));
    }
    assert j.modules[..|j.modules|] == j.modules;
    ok := true;
  }

  function ModuleFor(ms: seq<OwnedModule>, role: Role): Option<ModuleId> {
    if ms == [] then None else if ms[0].role == role then Some(ms[0].id) else ModuleFor(ms[1..], role)
  }

  function Named(endpoints: seq<Endpoint>, name: string): (r: seq<Endpoint>)
    ensures forall e :: e in r <==> e in endpoints && e.name == name
  {
    if endpoints == [] then []
    else (if endpoints[0].name == name then [endpoints[0]] else []) + Named(endpoints[1..], name)
  }

  function EndpointsFor(raw: RawGraph, role: Role): seq<Endpoint> {
    Named(if role.VirtualMicSource? then raw.sources else raw.sinks, EndpointName(role))
  }

  predicate HasAnyRequired(raw: RawGraph) {
    exists role <- ORDER :: EndpointsFor(raw, role) != []
  }

  predicate HasDuplicateRequired(raw: RawGraph) {
    exists role <- ORDER :: |EndpointsFor(raw, role)| > 1
  }

  predicate MatchesGraph(raw: RawGraph, j: Journal) {
    && |j.modules| == |ORDER|
    && forall role <- ORDER ::
         && |EndpointsFor(raw, role)| == 1
         && ModuleFor(j.modules, role) == Some(EndpointsFor(raw, role)[0].owner)
  }

  // ---- What reconciling should find ----

  predicate Live(modules: Modules, role: Role, g: string, id: ModuleId) {
    id in modules && ModuleMatches(role, modules[id], g)
  }

  function LiveIds(modules: Modules, role: Role, g: string): set<ModuleId> {
    set id <- modules | Live(modules, role, g, id)
  }

  /** Nothing seen contradicts the daemon owning exactly the modules that bear its mark. */
  ghost predicate Consistent(raw: RawGraph, j: Journal, modules: Modules) {
    && Truthful(j.modules, modules, j.generation)
    && NoImpostor(modules, j.generation)
    && (forall role :: |LiveIds(modules, role, j.generation)| <= 1)
    && (forall role :: Vouched(raw, role, modules, j.generation))
  }

  /** A journalled module that is there is the one that was loaded. */
  ghost predicate Truthful(ms: seq<OwnedModule>, modules: Modules, g: string) {
    forall o <- ms :: o.id in modules ==> ModuleMatches(o.role, modules[o.id], g)
  }

  /** No module claims a role it does not match. */
  ghost predicate NoImpostor(modules: Modules, g: string) {
    forall id <- modules :: Genuine(modules[id], g)
  }

  predicate Genuine(m: PactlModule, g: string) {
    ClaimedRole(m, g).Some? ==> ModuleMatches(ClaimedRole(m, g).value, m, g)
  }

  /** The endpoint of the role, if there is one, belongs to a module that matches the role. */
  predicate Vouched(raw: RawGraph, role: Role, modules: Modules, g: string) {
    EndpointsFor(raw, role) != [] ==> Live(modules, role, g, EndpointsFor(raw, role)[0].owner)
  }

  ghost function Found(modules: Modules, role: Role, g: string): (r: seq<OwnedModule>)
    ensures |r| <= 1 && forall o <- r :: o.role == role
  {
    if LiveIds(modules, role, g) == {} then []
    else var id :| id in LiveIds(modules, role, g); [OwnedModule(role, id)]
  }

  /** The modules there are, in role order. */
  ghost function Exactly(modules: Modules, g: string): Journal {
    Journal(JOURNAL_SCHEMA_VERSION, g,
            Found(modules, MicOutSink, g) + Found(modules, VirtualMicSource, g) + Found(modules, RemoteInSink, g))
  }

  lemma OneAtMost(s: set<ModuleId>)
    ensures |s| <= 1 <==> forall a, b :: a in s && b in s ==> a == b
  {
    if |s| <= 1 {
      forall a, b | a in s && b in s ensures a == b {
        assert {a, b} <= s;
        SubsetSmaller({a, b}, s);
      }
    } else {
      var a :| a in s;
      assert |s - {a}| == |s| - 1;
      var b :| b in s - {a};
    }
  }

  lemma {:induction false} SubsetSmaller(a: set<ModuleId>, b: set<ModuleId>)
    requires a <= b
    ensures |a| <= |b|
  {
    if a != {} {
      var x :| x in a;
      SubsetSmaller(a - {x}, b - {x});
    }
  }

  lemma FoundIs(modules: Modules, role: Role, g: string, id: ModuleId)
    requires |LiveIds(modules, role, g)| <= 1
    ensures Live(modules, role, g, id) <==> Found(modules, role, g) == [OwnedModule(role, id)]
    ensures LiveIds(modules, role, g) == {} <==> Found(modules, role, g) == []
  {
    OneAtMost(LiveIds(modules, role, g));
    assert id in LiveIds(modules, role, g) <==> Live(modules, role, g, id);
  }

  /** A module matches at most one role. */
  lemma OneRole(m: PactlModule, g: string, r1: Role, r2: Role)
    requires ModuleMatches(r1, m, g) && ModuleMatches(r2, m, g)
    ensures r1 == r2
  {
    MakingNames(r1);
    MakingNames(r2);
    NamesApart();
    hide KeyText, ValueText, ModuleName, Arguments;
  }

  /** The exact journal holds a module if and only if it is live and matches. */
  lemma ExactlyHolds(modules: Modules, g: string, o: OwnedModule)
    requires forall role :: |LiveIds(modules, role, g)| <= 1
    ensures o in Exactly(modules, g).modules <==> Live(modules, o.role, g, o.id)
  {
    FoundIs(modules, o.role, g, o.id);
    hide ModuleMatches, Live, LiveIds, Found;
    assert o in Found(modules, o.role, g) <==> Found(modules, o.role, g) == [o];
  }

  lemma ExactlyOrdered(modules: Modules, g: string)
    ensures InRoleOrder(Exactly(modules, g).modules) && |Exactly(modules, g).modules| <= 3
  {
    hide Found;
    var ms := Exactly(modules, g).modules;
    var (a, b) := (Found(modules, MicOutSink, g), Found(modules, VirtualMicSource, g));
    var c := Found(modules, RemoteInSink, g);
    forall i, j | 0 <= i < j < |ms| ensures Index(ms[i].role) < Index(ms[j].role) {
      assert |a| == 1 ==> a[0] in a;
      assert |b| == 1 ==> b[0] in b;
      assert |c| == 1 ==> c[0] in c;
    }
  }

  /** Two entries of the exact journal with one identifier have one role. */
  lemma ExactlyOnce(modules: Modules, g: string, o1: OwnedModule, o2: OwnedModule)
    requires forall role :: |LiveIds(modules, role, g)| <= 1
    requires o1 in Exactly(modules, g).modules && o2 in Exactly(modules, g).modules && o1.id == o2.id
    ensures o1.role == o2.role
  {
    hide Exactly, LiveIds, ModuleMatches;
    ExactlyHolds(modules, g, o1);
    ExactlyHolds(modules, g, o2);
    OneRole(modules[o1.id], g, o1.role, o2.role);
  }

  lemma ExactlyValid(modules: Modules, g: string)
    requires ValidGeneration(g) && forall role :: |LiveIds(modules, role, g)| <= 1
    ensures Valid(Exactly(modules, g))
  {
    hide Exactly, LiveIds, ValidGeneration;
    ExactlyOrdered(modules, g);
    ExactlyNamed(modules, g);
    var ms := Exactly(modules, g).modules;
    forall i, j | 0 <= i < j < |ms| ensures ms[i].id != ms[j].id {
      var (o1, o2) := (ms[i], ms[j]);
      assert Index(o1.role) < Index(o2.role);
      if o1.id == o2.id {
        ExactlyOnce(modules, g, o1, o2);
      }
    }
  }

  /** The exact journal is valid and holds precisely the live modules that match. */
  lemma ExactlyIs(modules: Modules, g: string)
    requires ValidGeneration(g) && forall role :: |LiveIds(modules, role, g)| <= 1
    ensures Valid(Exactly(modules, g))
    ensures forall o :: o in Exactly(modules, g).modules <==> Live(modules, o.role, g, o.id)
  {
    hide Exactly, LiveIds, Live, Valid, ValidGeneration;
    ExactlyValid(modules, g);
    forall o ensures o in Exactly(modules, g).modules <==> Live(modules, o.role, g, o.id) {
      ExactlyHolds(modules, g, o);
    }
  }

  lemma ExactlyNamed(modules: Modules, g: string)
    ensures Exactly(modules, g).version == JOURNAL_SCHEMA_VERSION && Exactly(modules, g).generation == g
  {
    hide Found;
  }
}
