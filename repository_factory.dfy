/** The repository registry: repositories registered under a name and fetched by it. */
module RepositoryFactory {
  import opened Common

  /**
   * The members every object inherits from `Object.prototype`, which a lookup on the plain
   * object `{}` finds when no own entry shadows them (`__proto__` is not part of this model).
   */
  const ObjectPrototype: set<string> := {
    "constructor", "hasOwnProperty", "isPrototypeOf", "propertyIsEnumerable", "toLocaleString",
    "toString", "valueOf", "__defineGetter__", "__defineSetter__", "__lookupGetter__", "__lookupSetter__"}

  /** What `this.repositories[name]` finds: a registered repository, or an inherited member. */
  datatype Found<R> = Registered(repository: R) | Inherited(member: string)

  class Factory<R> {
    /** `this.repositories`: the own entries, name to registered value. */
    var repositories: map<string, Option<R>>

    /** An empty registry, on which `get` finds exactly the inherited members. */
    constructor ()
      ensures repositories == map[]
      ensures forall name :: Get(name).Ok? <==> name in ObjectPrototype
    {
      repositories := map[];
    }

    /** `register(name, repository)`: store it under `name`, replacing any earlier entry. */
    method Register(name: string, repository: Option<R>)
      modifies this
      ensures repositories == old(repositories)[name := repository]
      ensures repository.Some? ==> Get(name) == Ok(Registered(repository.value))
      ensures repository.None? ==> Get(name).Err?
      ensures forall other :: other != name ==> Get(other) == old(Get(other))
    {
      repositories := repositories[name := repository];
    }

    /**
     * `get(name)`: the repository registered under `name`; for a name without an own entry,
     * the inherited member of that name; otherwise the error thrown when nothing truthy is
     * found (a falsy value is registered as None and shadows any inherited member).
     */
    function Get(name: string): (r: Result<Found<R>, string>)
      reads this
      ensures name in repositories ==> (r.Ok? <==> repositories[name].Some?)
      ensures name in repositories && r.Ok? ==> r.value == Registered(repositories[name].value)
      ensures name !in repositories ==> (r.Ok? <==> name in ObjectPrototype)
      ensures name !in repositories && r.Ok? ==> r.value == Inherited(name)
      ensures r.Err? ==> r.error == "Repository " + name + " not registered"
    {
      if name in repositories then
        if repositories[name].Some? then Ok(Registered(repositories[name].value))
        else Err("Repository " + name + " not registered")
      else if name in ObjectPrototype then Ok(Inherited(name))
      else Err("Repository " + name + " not registered")
    }
  }
}
