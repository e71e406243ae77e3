/**
 * The database handle: one instance per class, kept by the metaclass in a registry
 * keyed by class, and the session context that commits on success, rolls back on an
 * exception, and closes in every case.
 */
module DbCore {
  import opened Values

  /** A class whose instances the metaclass registers, named as in Python. */
  type ClassId = string

  const DbClass: ClassId := "_DB"

  /** A configured database handle: the engine descriptor it was built from. */
  class Database {
    var descriptor: string

    /** `_DB.__init__(engine_descriptor)`, which configures the engine at once. */
    constructor (descriptor: string)
      ensures this.descriptor == descriptor
    {
      this.descriptor := descriptor;
    }
  }

  /** `_DB_Meta._instance`: the one instance of each class that has one. */
  class InstanceRegistry {
    var instances: map<ClassId, Database>

    constructor ()
      ensures instances == map[]
    {
      instances := map[];
    }

    /**
     * `cls(*args, **kwargs)` through the metaclass, `args` holding every positional
     * and keyword argument. A registered class returns its instance when called with
     * no argument and raises `RuntimeError` otherwise, leaving the registry as it was.
     * An unregistered class is constructed normally (`__init__` takes exactly one
     * argument, the descriptor) and recorded under that class alone.
     */
    method Instantiate(cls: ClassId, args: seq<string>) returns (r: Result<Database>)
      modifies this
      ensures cls in old(instances) && |args| > 0 ==> r == Err(RuntimeError) && instances == old(instances)
      ensures cls in old(instances) && |args| == 0 ==> r == Ok(old(instances)[cls]) && instances == old(instances)
      ensures cls !in old(instances) && |args| == 1 ==>
        r.Ok? && fresh(r.value) && r.value.descriptor == args[0] && instances == old(instances)[cls := r.value]
      ensures cls !in old(instances) && |args| != 1 ==> r == Err(TypeError) && instances == old(instances)
      ensures forall c :: c in old(instances) ==> c in instances && instances[c] == old(instances)[c]
    {
      if cls in instances {
        if |args| > 0 {
          return Err(RuntimeError);
        }
        return Ok(instances[cls]);
      }
      if |args| != 1 {
        return Err(TypeError);
      }
      var instance := new Database(args[0]);
      instances := instances[cls := instance];
      r := Ok(instance);
    }
  }

  /**
   * Importing the module runs `DB = _DB(url)`. From then on every `_DB(...)` with an
   * argument raises `RuntimeError`, whatever the descriptor, and `_DB()` returns `DB`
   * itself.
   */
  method ImportThenInstantiate(registry: InstanceRegistry, url: string, other: string)
    returns (db: Result<Database>, again: Result<Database>, same: Result<Database>)
    requires registry.instances == map[]
    modifies registry
    ensures db.Ok? && db.value.descriptor == url
    ensures again == Err(RuntimeError)
    ensures same == db
    ensures registry.instances == map[DbClass := db.value]
  {
    db := registry.Instantiate(DbClass, [url]);
    again := registry.Instantiate(DbClass, [other]);
    same := registry.Instantiate(DbClass, []);
  }

  // ---------------------------------------------------------------------------
  // get_session

  /** What happens to a database session. */
  datatype Event = Committed | RolledBack | Closed

  function Count(log: seq<Event>, e: Event): nat {
    if log == [] then 0 else (if log[0] == e then 1 else 0) + Count(log[1..], e)
  }

  /**
   * The context manager's protocol for a `with` body that ends with `body`, where
   * `commit` and `rollback` are what those calls on the session do. On normal exit
   * the session is committed (and a failing commit propagates); on an exception it is
   * rolled back and the exception re-raised (or the rollback's own, if that fails).
   * Either way it is closed exactly once, last, and it is never both committed and
   * rolled back.
   */
  function Lifecycle(body: Result<()>, commit: Result<()>, rollback: Result<()>): (r: (seq<Event>, Result<()>))
    ensures Count(r.0, Closed) == 1 && r.0[|r.0| - 1] == Closed
    ensures Count(r.0, Committed) == (if body.Ok? then 1 else 0)
    ensures Count(r.0, RolledBack) == (if body.Err? then 1 else 0)
    ensures body.Ok? ==> r.1 == commit
    ensures body.Err? ==> r.1.Err? && r.1 == (if rollback.Err? then rollback else body)
  {
    if body.Ok? then
      ([Committed, Closed], commit)
    else
      ([RolledBack, Closed], if rollback.Err? then rollback else body)
  }

  /** A session handed out by `get_session`, recording what was done to it. */
  class DbSession {
    var log: seq<Event>

    constructor ()
      ensures log == []
    {
      log := [];
    }

    method Commit(outcome: Result<()>) returns (r: Result<()>)
      modifies this
      ensures log == old(log) + [Committed] && r == outcome
    {
      log := log + [Committed];
      r := outcome;
    }

    method Rollback(outcome: Result<()>) returns (r: Result<()>)
      modifies this
      ensures log == old(log) + [RolledBack] && r == outcome
    {
      log := log + [RolledBack];
      r := outcome;
    }

    method Close()
      modifies this
      ensures log == old(log) + [Closed]
    {
      log := log + [Closed];
    }
  }

  /** `with db.get_session() as session: ...`: the try/except/else/finally of the
      context manager around a body that ends with `body`. */
  method GetSession(body: Result<()>, commit: Result<()>, rollback: Result<()>)
    returns (session: DbSession, r: Result<()>)
    ensures fresh(session)
    ensures (session.log, r) == Lifecycle(body, commit, rollback)
  {
    session := new DbSession();
    if body.Err? {
      var rb := session.Rollback(rollback);
      r := if rb.Err? then rb else body;
    } else {
      r := session.Commit(commit);
    }
    session.Close();
    assert session.log == [if body.Err? then RolledBack else Committed, Closed];
    assert r == Lifecycle(body, commit, rollback).1;
  }
}
