/** The repository of service records over a file-backed store. */
module RepoObjects {
  import opened Basics
  import opened Services
  import opened FileStores
  import R = ServiceRepos

  class ServiceRepo {
    const store: FileStore<seq<Record>>

    /** What is stored, whether read from the cache or from the file. */
    ghost function Groups(): R.Store
      reads store
    {
      Contents(store.View())
    }

    ghost predicate Valid()
      reads store
    {
      store.zero == [] && Coherent(store.View())
    }

    constructor (store: FileStore<seq<Record>>)
      requires store.zero == [] && Coherent(store.View())
      ensures this.store == store && Valid()
    {
      this.store := store;
    }

    method Read(id: string) returns (group: seq<Record>)
      requires Valid()
      modifies store
      ensures Valid() && Groups() == old(Groups()) && group == R.Read(Groups(), id)
    {
      Simulates([], store.View(), Load(id));
      group := store.Load(id);
    }

    method Save(id: string, group: seq<Record>)
      requires Valid()
      modifies store
      ensures Valid() && Groups() == old(Groups())[id := group]
    {
      Simulates([], store.View(), Operation.Save(id, group));
      store.Save(id, group);
    }

    method GetActive(memberOf: string) returns (active: Option<Record>)
      requires Valid()
      modifies store
      ensures Valid() && Groups() == old(Groups()) && active == R.GetActive(Groups(), memberOf)
    {
      var group := Read(memberOf);
      var i := 0;
      while i < |group| && !group[i].isActive
        invariant 0 <= i <= |group|
        invariant R.FirstActive(group) == R.FirstActive(group[i..])
      {
        assert group[i..][1..] == group[i + 1..];
        i := i + 1;
      }
      active := if i < |group| then Some(group[i]) else None;
    }

    method HasOverride(memberOf: string) returns (override: bool)
      requires Valid()
      modifies store
      ensures Valid() && Groups() == old(Groups()) && override == R.HasOverride(Groups(), memberOf)
    {
      var active := GetActive(memberOf);
      override := active.Some? && active.value.hasOverride;
    }

    method Create(n: Record)
      requires Valid()
      modifies store
      ensures Valid() && Groups() == R.Create(old(Groups()), n)
    {
      var override := HasOverride(n.memberOf);
      if override {
        return;
      }
      var group := Read(n.memberOf);
      if R.IndexOfId(group, n.id) != -1 {
        var ok := Update(n);
        return;
      }
      assert [] + [n] == [n];
      Save(n.memberOf, group + [n]);
    }

    method Update(n: Record) returns (ok: bool)
      requires Valid()
      modifies store
      ensures Valid() && ok == R.Update(old(Groups()), n).Saved?
      ensures Groups() == if ok then R.Update(old(Groups()), n).store else old(Groups())
    {
      var override := HasOverride(n.memberOf);
      var group := Read(n.memberOf);
      if |group| == 0 {
        return false;
      }
      var idx := R.IndexOfId(group, n.id);
      if idx == -1 {
        return false;
      }
      var new' := n;
      if group[idx].isActive && override {
        new' := n.(ip := group[idx].ip, hasOverride := true);
      }
      group := group[idx := new'];
      Save(n.memberOf, group);
      return true;
    }

    method Delete(memberOf: string, id: Id)
      requires Valid()
      modifies store
      ensures Valid() && Groups() == R.Delete(old(Groups()), memberOf, id)
    {
      var group := Read(memberOf);
      var override := HasOverride(memberOf);
      if override {
        return;
      }
      group := R.WithoutId(group, id);
      if |group| == 0 {
        Simulates([], store.View(), Operation.Delete(memberOf));
        store.Delete(memberOf);
      }
      Save(memberOf, group);
    }
  }
}
