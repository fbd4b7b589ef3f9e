/** The handler registry of index.js: a two-level map from an event source
    (`"ec2.amazonaws.com"`) to an event name (`"RunInstances"`) to the handler
    bound to that pair. `registerHandler` fills it at module load;
    `inspectTrail` consults it for every trail record. */
module Registry {
  import opened Results

  type Registry<H> = map<string, map<string, H>>

  const AlreadyRegistered: Error := Error("handler already registered")

  /** The (source, name) pairs that have a handler. */
  function Entries<H>(reg: Registry<H>): set<(string, string)>
  {
    set s, n | s in reg && n in reg[s] :: (s, n)
  }

  /** No event source maps to an empty table. */
  predicate NoEmptySource<H>(reg: Registry<H>)
  {
    forall s :: s in reg ==> |reg[s]| > 0
  }

  /** The two-level lookup `handlerRegistry[source][name]`, where an undefined
      level at either step means "no handler". */
  function Lookup<H>(reg: Registry<H>, source: string, name: string): (r: Option<H>)
    ensures r.Some? <==> (source, name) in Entries(reg)
  {
    if source in reg && name in reg[source] then Some(reg[source][name]) else None
  }

  /** The registry as it stands after a `registerHandler` call, and whether the call threw. */
  datatype Registration<H> = Registration(registry: Registry<H>, outcome: Outcome<Error>)

  /** `registerHandler(source, name, handler)`: first ensures the source has a
      table, then throws if the pair already has a handler, else stores it. */
  function Register<H>(reg: Registry<H>, source: string, name: string, handler: H): (r: Registration<H>)
    ensures r.outcome.Fail? <==> Lookup(reg, source, name).Some?
    ensures r.outcome.Fail? ==> r.outcome.error == AlreadyRegistered && r.registry == reg
    ensures r.outcome.Pass? ==> Lookup(r.registry, source, name) == Some(handler)
    ensures forall s, n :: (s, n) != (source, name) ==> Lookup(r.registry, s, n) == Lookup(reg, s, n)
    ensures NoEmptySource(reg) ==> NoEmptySource(r.registry)
  {
    var withSource := if source !in reg then reg[source := map[]] else reg;
    if name in withSource[source] then
      Registration(withSource, Fail(AlreadyRegistered))
    else
      Registration(withSource[source := withSource[source][name := handler]], Pass)
  }

  /** A successful registration adds exactly the one new pair. */
  lemma RegisterAddsOneEntry<H>(reg: Registry<H>, source: string, name: string, handler: H)
    requires Lookup(reg, source, name).None?
    ensures Entries(Register(reg, source, name, handler).registry) == Entries(reg) + {(source, name)}
    ensures |Entries(Register(reg, source, name, handler).registry)| == |Entries(reg)| + 1
  {
    var after := Register(reg, source, name, handler).registry;
    assert forall p :: p in Entries(after) <==> p in Entries(reg) || p == (source, name);
    assert Entries(after) == Entries(reg) + {(source, name)};
    assert (source, name) !in Entries(reg);
  }

  /** Registering the same pair twice always throws the second time, whatever
      the handlers and whatever was registered before. */
  lemma DuplicateRegistrationFails<H>(reg: Registry<H>, source: string, name: string, first: H, second: H)
    ensures var once := Register(reg, source, name, first);
            once.outcome.Pass? ==>
              Register(once.registry, source, name, second).outcome == Fail(AlreadyRegistered)
  {
  }
}
