/** ActorRegistry: actors by name and by id, and generations that tell a reused id from the actor it first named. */
module Registry {
  import opened Basics

  /** key: the actor's address. */
  datatype Actor = Actor(key: nat, id: nat, name: string)

  datatype Entry = Entry(actor: Actor, generation: nat)

  datatype Handle = Handle(id: nat, generation: nat)

  datatype Index = Index(byName: map<string, Entry>, byId: map<nat, Entry>, generations: map<nat, nat>)

  /** generations_[id], which a first access sets to zero */
  function Generation(r: Index, id: nat): nat {
    if id in r.generations then r.generations[id] else 0
  }

  function Added(r: Index, a: Actor): Index {
    var e := Entry(a, Generation(r, a.id));
    Index(r.byName[a.name := e], r.byId[a.id := e], r.generations[a.id := Generation(r, a.id) + 1])
  }

  function Removed(r: Index, a: Actor): Index {
    Index(
      if a.name in r.byName && r.byName[a.name].actor == a then r.byName - {a.name} else r.byName,
      r.byId - {a.id},
      r.generations[a.id := Generation(r, a.id) + 1])
  }

  function Cleared(r: Index): Index { r.(byName := map[], byId := map[]) }

  function FindByName(r: Index, name: string): Option<Handle> {
    if name in r.byName then Some(Handle(r.byName[name].actor.id, r.byName[name].generation)) else None
  }

  function FindById(r: Index, id: nat): Option<Handle> {
    if id in r.byId then Some(Handle(id, r.byId[id].generation)) else None
  }

  function Resolve(r: Index, h: Handle): Option<Actor> {
    if h.id in r.byId && r.byId[h.id].generation == h.generation then Some(r.byId[h.id].actor) else None
  }

  class ActorRegistry {
    var byName: map<string, Entry>
    var byId: map<nat, Entry>
    var generations: map<nat, nat>

    function View(): Index
      reads this
    {
      Index(byName, byId, generations)
    }

    constructor ()
      ensures View() == Index(map[], map[], map[])
    {
      byName, byId, generations := map[], map[], map[];
    }

    method NextGeneration(id: nat) returns (was: nat)
      modifies this`generations
      ensures was == Generation(old(View()), id) && generations == old(generations)[id := was + 1]
    {
      if id !in generations {
        generations := generations[id := 0];
      }
      was := generations[id];
      generations := generations[id := was + 1];
    }

    /** gen: what setGeneration stores in the actor. */
    method Add(a: Actor) returns (gen: nat)
      modifies this
      ensures View() == Added(old(View()), a)
      ensures gen == (if a.id in old(generations) then old(generations)[a.id] else 0)
      ensures generations == old(generations)[a.id := gen + 1]
      ensures Resolve(View(), Handle(a.id, gen)) == Some(a) && !Issued(old(View()), Handle(a.id, gen))
      ensures FindById(View(), a.id) == FindByName(View(), a.name) == Some(Handle(a.id, gen))
      ensures forall id :: id != a.id ==> FindById(View(), id) == FindById(old(View()), id)
      ensures forall n :: n != a.name ==> FindByName(View(), n) == FindByName(old(View()), n)
      ensures forall h: Handle :: h.id != a.id ==> Resolve(View(), h) == Resolve(old(View()), h)
    {
      gen := NextGeneration(a.id);
      byName := byName[a.name := Entry(a, gen)];
      byId := byId[a.id := Entry(a, gen)];
    }

    method Remove(a: Actor)
      modifies this
      ensures View() == Removed(old(View()), a)
      ensures generations
              == old(generations)[a.id := 1 + if a.id in old(generations) then old(generations)[a.id] else 0]
      ensures FindById(View(), a.id) == None && forall h: Handle :: h.id == a.id ==> Resolve(View(), h) == None
      ensures forall id :: id != a.id ==> FindById(View(), id) == FindById(old(View()), id)
      ensures forall h: Handle :: h.id != a.id ==> Resolve(View(), h) == Resolve(old(View()), h)
      ensures forall n ::
                FindByName(View(), n)
                == if n == a.name && n in old(byName) && old(byName)[n].actor == a then None
                   else FindByName(old(View()), n)
    {
      var was := NextGeneration(a.id);
      if a.name in byName && byName[a.name].actor == a {
        byName := byName - {a.name};
      }
      byId := byId - {a.id};
    }

    /** No handle resolves any more, and those issued so far stay issued, so that HandlesNeverRevive holds
        for them. */
    method Clear()
      modifies this
      ensures View() == Cleared(old(View())) && generations == old(generations)
      ensures forall h: Handle :: Resolve(View(), h) == None && (Issued(old(View()), h) ==> Issued(View(), h))
      ensures (forall id :: FindById(View(), id) == None) && (forall n :: FindByName(View(), n) == None)
    {
      byName, byId := map[], map[];
    }
  }

  // ---- Histories ---------------------------------------------------------------------------------

  datatype Action = AddActor(a: Actor) | RemoveActor(a: Actor) | ClearAll

  function Step(r: Index, x: Action): Index {
    match x
    case AddActor(a) => Added(r, a)
    case RemoveActor(a) => Removed(r, a)
    case ClearAll => Cleared(r)
  }

  predicate IsRun(run: seq<Index>, acts: seq<Action>) {
    |run| == |acts| + 1 && run[0] == Index(map[], map[], map[])
    && forall k :: 0 <= k < |acts| ==> run[k + 1] == Step(run[k], acts[k])
  }

  /** Every generation in use has been counted. */
  ghost predicate Counted(r: Index) {
    && (forall id :: id in r.byId ==> r.byId[id].generation < Generation(r, id))
    && (forall n :: n in r.byName ==> r.byName[n].generation < Generation(r, r.byName[n].actor.id))
  }

  lemma {:induction false} RunCounted(run: seq<Index>, acts: seq<Action>, k: nat)
    requires IsRun(run, acts) && k < |run|
    ensures Counted(run[k])
  {
    if k > 0 {
      RunCounted(run, acts, k - 1);
      assert run[k - 1 + 1] == Step(run[k - 1], acts[k - 1]);
    }
  }

  predicate Issued(r: Index, h: Handle) { h.generation < Generation(r, h.id) }

  lemma StepResolve(r: Index, x: Action, h: Handle)
    requires Issued(r, h)
    ensures Issued(Step(r, x), h) && (Resolve(Step(r, x), h) == Resolve(r, h) || Resolve(Step(r, x), h) == None)
  {
  }

  /** An issued handle resolves to what it resolved to before or to nothing; once nothing, always nothing. */
  lemma {:induction false} HandlesNeverRevive(run: seq<Index>, acts: seq<Action>, h: Handle, i: nat, j: nat)
    requires IsRun(run, acts) && i <= j < |run| && Issued(run[i], h)
    ensures Issued(run[j], h)
    ensures Resolve(run[j], h) == Resolve(run[i], h) || Resolve(run[j], h) == None
    decreases j
  {
    if j > i {
      HandlesNeverRevive(run, acts, h, i, j - 1);
      assert run[j - 1 + 1] == Step(run[j - 1], acts[j - 1]);
      StepResolve(run[j - 1], acts[j - 1], h);
    }
  }

  /** Handles that the registry gives out are issued, so they never resolve to another actor than the one
      they were given out for. */
  lemma HandlesNameOneActor(run: seq<Index>, acts: seq<Action>, id: nat, i: nat, j: nat)
    requires IsRun(run, acts) && i <= j < |run| && FindById(run[i], id).Some?
    ensures var h := FindById(run[i], id).value;
            && Resolve(run[i], h) == Some(run[i].byId[id].actor)
            && (Resolve(run[j], h) == Some(run[i].byId[id].actor) || Resolve(run[j], h) == None)
  {
    RunCounted(run, acts, i);
    HandlesNeverRevive(run, acts, FindById(run[i], id).value, i, j);
  }

  /** A name entry and an id entry of the same id and generation are of the same actor. */
  ghost predicate OneActorEach(r: Index) {
    forall n :: n in r.byName && r.byName[n].actor.id in r.byId ==>
      var e, f := r.byName[n], r.byId[r.byName[n].actor.id];
      e.generation == f.generation ==> e.actor == f.actor
  }

  lemma StepOneActorEach(r: Index, x: Action)
    requires Counted(r) && OneActorEach(r)
    ensures OneActorEach(Step(r, x))
  {
    var r1 := Step(r, x);
    forall n | n in r1.byName && r1.byName[n].actor.id in r1.byId
      ensures var e, f := r1.byName[n], r1.byId[r1.byName[n].actor.id];
              e.generation == f.generation ==> e.actor == f.actor
    {
      if x.AddActor? && n != x.a.name && r1.byName[n].actor.id == x.a.id {
        assert r.byName[n].generation < Generation(r, x.a.id);
      }
    }
  }

  lemma {:induction false} RunOneActorEach(run: seq<Index>, acts: seq<Action>, k: nat)
    requires IsRun(run, acts) && k < |run|
    ensures OneActorEach(run[k])
  {
    if k > 0 {
      RunOneActorEach(run, acts, k - 1);
      RunCounted(run, acts, k - 1);
      assert run[k - 1 + 1] == Step(run[k - 1], acts[k - 1]);
      StepOneActorEach(run[k - 1], acts[k - 1]);
    }
  }

  /** A handle found by name, too, never resolves to another actor than the one the name led to, whatever
      ids are shared. */
  lemma NamedHandlesNameOneActor(run: seq<Index>, acts: seq<Action>, name: string, i: nat, j: nat)
    requires IsRun(run, acts) && i <= j < |run| && FindByName(run[i], name).Some?
    ensures var h := FindByName(run[i], name).value;
            Resolve(run[j], h) == Some(run[i].byName[name].actor) || Resolve(run[j], h) == None
  {
    RunCounted(run, acts, i);
    RunOneActorEach(run, acts, i);
    HandlesNeverRevive(run, acts, FindByName(run[i], name).value, i, j);
  }

  // ---- Names and ids -----------------------------------------------------------------------------

  /** Every name entry is the id index's entry of the same actor. */
  predicate Agrees(r: Index) {
    forall n :: n in r.byName ==> r.byName[n].actor.id in r.byId && r.byId[r.byName[n].actor.id] == r.byName[n]
  }

  /** add keeps names and ids in agreement exactly when no other name leads to an actor with that id. */
  lemma AddAgreesIff(r: Index, a: Actor)
    requires Counted(r) && Agrees(r)
    ensures Agrees(Added(r, a)) <==> forall n :: n in r.byName && n != a.name ==> r.byName[n].actor.id != a.id
  {
    var r1 := Added(r, a);
    forall n | n in r.byName && n != a.name && r.byName[n].actor.id == a.id ensures !Agrees(r1) {
      assert n in r1.byName && r1.byName[n].generation < r1.byId[a.id].generation;
    }
  }

  /** remove keeps the agreement exactly when no name leads to an actor with that id, but for the removed
      actor under its own name. */
  lemma RemoveAgreesIff(r: Index, a: Actor)
    requires Agrees(r)
    ensures Agrees(Removed(r, a)) <==>
              forall n :: n in r.byName && r.byName[n].actor.id == a.id ==> n == a.name && r.byName[n].actor == a
  {
    var r1 := Removed(r, a);
    forall n | n in r.byName && r.byName[n].actor.id == a.id && !(n == a.name && r.byName[n].actor == a)
      ensures !Agrees(r1)
    {
      assert n in r1.byName && r1.byName[n].actor.id !in r1.byId;
    }
  }

  /** An actor that is added or removed shares its id with no other registered actor, and goes by one name. */
  predicate DistinctIds(r: Index, x: Action) {
    x.ClearAll? ||
    forall n :: n in r.byName && r.byName[n].actor.id == x.a.id ==> r.byName[n].actor == x.a && n == x.a.name
  }

  /** While ids are distinct, a name leads to the same actor and generation as its id. */
  lemma {:induction false} NamesAgreeWithIds(run: seq<Index>, acts: seq<Action>, k: nat)
    requires IsRun(run, acts) && k < |run| && forall j :: 0 <= j < |acts| ==> DistinctIds(run[j], acts[j])
    ensures Agrees(run[k])
    ensures forall n :: n in run[k].byName ==>
              Resolve(run[k], FindByName(run[k], n).value) == Some(run[k].byName[n].actor)
  {
    if k > 0 {
      NamesAgreeWithIds(run, acts, k - 1);
      RunCounted(run, acts, k - 1);
      assert run[k - 1 + 1] == Step(run[k - 1], acts[k - 1]) && DistinctIds(run[k - 1], acts[k - 1]);
      match acts[k - 1]
      case AddActor(a) => AddAgreesIff(run[k - 1], a);
      case RemoveActor(a) => RemoveAgreesIff(run[k - 1], a);
      case ClearAll =>
    }
  }

  /** Two actors with one id: the first one's name still leads to it, but through a handle that is dead. */
  lemma SharedIdLosesAName()
    ensures var r := Added(Added(Index(map[], map[], map[]), Actor(0, 7, "a")), Actor(1, 7, "b"));
            && r.byName["a"].actor == Actor(0, 7, "a")
            && FindByName(r, "a") == Some(Handle(7, 0)) && Resolve(r, Handle(7, 0)) == None
  {
    assert "a"[0] != "b"[0];
  }
}
