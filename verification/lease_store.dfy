/** Taking and releasing a lease when nobody else touches the directory meanwhile. */
module LeaseStore {
  import opened Common
  import opened Leases

  /** The files of running processes. */
  function Live(files: set<Id>, alive: set<int>): set<Id> { set id | id in files && id.pid in alive }

  class BrowserLeaseStore {
    var files: set<Id>
    const alive: set<int>

    constructor (files: set<Id>, alive: set<int>)
      ensures this.files == files && this.alive == alive
    {
      this.files := files;
      this.alive := alive;
    }

    /** The holders whose processes live. The files of all others are deleted. */
    method Holders() returns (live: set<Id>)
      modifies `files
      ensures live == Live(old(files), alive) && files == live
    {
      live := {};
      var entries := files;
      while entries != {}
        invariant entries <= files <= old(files) && live == Live(old(files) - entries, alive)
        invariant files == live + entries
        decreases entries
      {
        var id :| id in entries;
        if id.pid in alive {
          live := live + {id};
        } else {
          files := files - {id};
        }
        entries := entries - {id};
      }
    }

    /** Write the lease first, then look for others; an exclusive one gives way to anybody alive. */
    method Acquire(id: Id, exclusive: bool) returns (r: Result<Lease, set<Id>>)
      modifies `files
      ensures r.Failure? <==> exclusive && Live(old(files), alive) - {id} != {}
      ensures r.Failure? ==> r.error == Live(old(files), alive) - {id} && files == r.error
      ensures r.Success? ==> fresh(r.value) && r.value.id == id && !r.value.released && r.value.store == this
      ensures r.Success? ==> files == (if exclusive then Live(old(files) + {id}, alive) else old(files) + {id})
    {
      files := files + {id};
      if exclusive {
        var holders := Holders();
        var others := holders - {id};
        if others != {} {
          files := files - {id};
          assert others == Live(old(files), alive) - {id};
          return Failure(others);
        }
      }
      var lease := new Lease(this, id);
      return Success(lease);
    }
  }

  class Lease {
    const store: BrowserLeaseStore
    const id: Id
    var released: bool

    constructor (store: BrowserLeaseStore, id: Id)
      ensures this.store == store && this.id == id && !released
    {
      this.store := store;
      this.id := id;
      released := false;
    }

    /** Give the lease up, the first time; say whether nobody is left, every time. */
    method Release() returns (last: bool)
      modifies this, store
      ensures released
      ensures store.files == Live(if old(released) then old(store.files) else old(store.files) - {id}, store.alive)
      ensures last <==> store.files == {}
    {
      if !released {
        released := true;
        store.files := store.files - {id};
      }
      var holders := store.Holders();
      last := holders == {};
    }
  }
}
