/** Per-session revision counters that survive a restart of the daemon. */
module Revision {
  import opened Common

  type Id = string

  /** The counters in memory, and what the last successful write left on disk. */
  datatype Counters = Counters(mem: map<Id, int>, disk: map<Id, int>)

  function Current(c: Counters, id: Id): int {
    if id in c.mem then c.mem[id] else 0
  }

  function Persist(c: Counters, ok: bool): Counters {
    if ok then c.(disk := c.mem) else c
  }

  function Bump(c: Counters, id: Id, ok: bool): Counters {
    Persist(c.(mem := c.mem[id := Current(c, id) + 1]), ok)
  }

  function Drop(c: Counters, id: Id, ok: bool): Counters {
    if id !in c.mem then c else Persist(c.(mem := c.mem - {id}), ok)
  }

  /** A new process starts from the file. */
  function Reload(c: Counters): Counters {
    c.(mem := c.disk)
  }

  class Store {
    const path: string
    var rev: map<Id, int>
    ghost var file: map<Id, int>

    ghost function Value(): Counters
      reads this
    {
      Counters(rev, file)
    }

    /** `loaded` is what the file decodes to, if it can be read. */
    constructor (path: string, loaded: Option<map<Id, int>>)
      ensures this.path == path && Value().mem == if path == "" || loaded.None? then map[] else loaded.value
      ensures path != "" && loaded.Some? ==> Value() == Reload(Counters(map[], loaded.value))
    {
      this.path := path;
      rev := if path == "" || loaded.None? then map[] else loaded.value;
      file := if loaded.None? then map[] else loaded.value;
    }

    method Next(id: Id, diskOk: bool) returns (next: int)
      modifies this
      ensures Value() == Bump(old(Value()), id, path != "" && diskOk)
      ensures next == Current(Value(), id) == Current(old(Value()), id) + 1
    {
      next := (if id in rev then rev[id] else 0) + 1;
      rev := rev[id := next];
      if path != "" && diskOk { file := rev; }
    }

    function CurrentRev(id: Id): (n: int)
      reads this
      ensures n == Current(Value(), id)
    {
      if id in rev then rev[id] else 0
    }

    method Forget(id: Id, diskOk: bool)
      modifies this
      ensures Value() == Drop(old(Value()), id, path != "" && diskOk)
    {
      if id !in rev { return; }
      rev := rev - {id};
      if path != "" && diskOk { file := rev; }
    }
  }
}
