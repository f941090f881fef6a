/**
 * ReplicatedEventRequestScope: a per-thread slot holding the request context
 * under which incoming replicated events are applied, and the context itself,
 * a memoising map pre-populated with the database provider.
 */
module RequestScope {
  import opened Events

  /** The key of an object scoped to one request; DbKey is the database provider's. */
  datatype Key = DbKey | OtherKey(name: string)

  /** A request-scoped object: the database provider opened on a schema factory, or another created object. */
  datatype Scoped = DbProvider(schemaFactory: nat) | CreatedObject(id: nat)

  /** Context.get: the stored object if there is one; otherwise the creator's, which is then stored. */
  function Memoise(values: map<Key, Scoped>, key: Key, created: Scoped): (r: (map<Key, Scoped>, Scoped))
    ensures key in values ==> r == (values, values[key])
    ensures key !in values ==> r == (values[key := created], created)
  {
    if key in values then (values, values[key]) else (values[key := created], created)
  }

  /** Once a key has an object, every later lookup returns that object, whatever its creator would make. */
  lemma MemoisedOnce(values: map<Key, Scoped>, key: Key, first: Scoped, later: Scoped)
    ensures var (values', v) := Memoise(values, key, first);
      Memoise(values', key, later) == (values', v)
  {
  }

  class Context {
    /** The schema factory the context was created with. */
    const schemaFactory: nat
    var values: map<Key, Scoped>

    /** A new context holds only the database provider opened on its schema factory. */
    constructor (schemaFactory: nat)
      ensures this.schemaFactory == schemaFactory
      ensures values == map[DbKey := DbProvider(schemaFactory)]
      ensures Valid()
    {
      this.schemaFactory := schemaFactory;
      values := map[DbKey := DbProvider(schemaFactory)];
    }

    /** The database provider stays in place: get never replaces a stored object. */
    predicate Valid()
      reads this
    {
      DbKey in values && values[DbKey] == DbProvider(schemaFactory)
    }

    /** get(key, creator), with `created` the object the creator would return. */
    method Get(key: Key, created: Scoped) returns (v: Scoped)
      requires Valid()
      modifies this
      ensures (values, v) == Memoise(old(values), key, created)
      ensures Valid()
    {
      if key !in values {
        values := values[key := created];
      }
      v := values[key];
    }

    /** getReviewDbProvider: the provider stored at construction. */
    function GetReviewDbProvider(): (p: Scoped)
      requires Valid()
      reads this
      ensures p == DbProvider(schemaFactory)
    {
      values[DbKey]
    }

    /** getUser: there is no user in this scope; it always throws. */
    function GetUser(): (r: Outcome)
      ensures r.Failed? && r.error == NotImplemented
    {
      Failed(NotImplemented)
    }
  }

  /**
   * The two thread-local slots of the applying thread: the scope's own static
   * `current`, and the ThreadLocalRequestContext's.  Being static, they are
   * shared by every scope object on the thread.
   */
  class ThreadSlots {
    var current: Context?
    var requestContext: Context?

    constructor ()
      ensures current == null && requestContext == null
    {
      current := null;
      requestContext := null;
    }
  }

  class ReplicatedEventRequestScope {
    const thread: ThreadSlots

    constructor (thread: ThreadSlots)
      ensures this.thread == thread
    {
      this.thread := thread;
    }

    /** newContext: a fresh context on the given schema factory. */
    method NewContext(schemaFactory: nat) returns (ctx: Context)
      ensures fresh(ctx) && ctx.schemaFactory == schemaFactory && ctx.Valid()
    {
      ctx := new Context(schemaFactory);
    }

    /** set: installs `ctx` in both slots and returns the context it displaced. */
    method Set(ctx: Context?) returns (previous: Context?)
      modifies thread
      ensures previous == old(thread.current)
      ensures thread.current == ctx && thread.requestContext == ctx
    {
      previous := thread.current;
      thread.current := ctx;
      thread.requestContext := ctx;
    }

    /** get: the installed context, possibly none. */
    function Get(): (ctx: Context?)
      reads thread
      ensures ctx == thread.current
    {
      thread.current
    }

    /** requireContext: the installed context, or OutOfScopeException when there is none. */
    function RequireContext(): (r: Result<Context>)
      reads thread
      ensures thread.current == null <==> r.Err?
      ensures r.Err? ==> r.error == OutOfScope("Not in command/request")
      ensures r.Ok? ==> r.value == thread.current
    {
      if thread.current == null then Err(OutOfScope("Not in command/request"))
      else var ctx: Context := thread.current; Ok(ctx)
    }

    /**
     * reopenDb: a fresh context on the installed one's schema factory replaces
     * it, and the old one is returned; with none installed it throws.
     */
    method ReopenDb() returns (r: Result<Context>)
      modifies thread
      ensures old(thread.current) == null ==>
        r == Err(NullPointer) && thread.current == null && thread.requestContext == old(thread.requestContext)
      ensures old(thread.current) != null ==>
        && r.Ok? && r.value == old(thread.current)
        && thread.current != null && fresh(thread.current)
        && thread.current.schemaFactory == old(thread.current.schemaFactory)
        && thread.current.Valid()
        && thread.requestContext == thread.current
    {
      var previous := thread.current;
      if previous == null {
        return Err(NullPointer);
      }
      var ctx := new Context(previous.schemaFactory);
      var displaced := Set(ctx);
      r := Ok(displaced);
    }
  }
}
