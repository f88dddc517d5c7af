/** The file-backed store with its cache, against a plain map. */
module FileStores {
  import opened Basics

  datatype Operation<T> = Save(key: string, data: T) | Load(key: string) | LoadAll | Delete(key: string)

  /** `LoadAll` answers with the values of `entries`, in any order. */
  datatype Answer<T> = Done | Loaded(data: T) | LoadedAll(entries: map<string, T>)

  /** The cache, and what the file holds: nothing at all at first, later the encoding of a map. */
  datatype Disk<T> = Disk(cache: map<string, T>, file: Option<map<string, T>>)

  function Contents<T>(d: Disk<T>): map<string, T> {
    if d.file.Some? then d.file.value else map[]
  }

  function OnMap<T>(zero: T, m: map<string, T>, op: Operation<T>): (map<string, T>, Answer<T>) {
    match op
    case Save(key, data) => (m[key := data], Done)
    case Load(key) => (m, Loaded(if key in m then m[key] else zero))
    case LoadAll => (m, LoadedAll(m))
    case Delete(key) => (m - {key}, Done)
  }

  function OnDisk<T>(zero: T, d: Disk<T>, op: Operation<T>): (Disk<T>, Answer<T>) {
    match op
    case Save(key, data) => (Disk(d.cache[key := data], Some(Contents(d)[key := data])), Done)
    case Load(key) =>
      if key in d.cache then (d, Loaded(d.cache[key]))
      else if d.file.None? then (d, Loaded(zero))
      else
        var cache := d.cache + d.file.value;
        (Disk(cache, d.file), Loaded(if key in cache then cache[key] else zero))
    case LoadAll =>
      if d.file.None? then (d, LoadedAll(map[])) else (Disk(d.cache + d.file.value, d.file), LoadedAll(d.file.value))
    case Delete(key) => (Disk(d.cache - {key}, Some(Contents(d) - {key})), Done)
  }

  /** Cached entries agree with the file. */
  ghost predicate Coherent<T(!new)>(d: Disk<T>) {
    forall key :: key in d.cache ==> key in Contents(d) && d.cache[key] == Contents(d)[key]
  }

  lemma Simulates<T(!new)>(zero: T, d: Disk<T>, op: Operation<T>)
    requires Coherent(d)
    ensures var (d', answer) := OnDisk(zero, d, op); var (m', expected) := OnMap(zero, Contents(d), op);
            Coherent(d') && Contents(d') == m' && answer == expected
  {
  }

  function DiskAfter<T>(zero: T, d: Disk<T>, ops: seq<Operation<T>>): Disk<T>
    decreases |ops|
  {
    if ops == [] then d else DiskAfter(zero, OnDisk(zero, d, ops[0]).0, ops[1..])
  }

  function DiskAnswers<T>(zero: T, d: Disk<T>, ops: seq<Operation<T>>): seq<Answer<T>>
    decreases |ops|
  {
    if ops == [] then []
    else [OnDisk(zero, d, ops[0]).1] + DiskAnswers(zero, OnDisk(zero, d, ops[0]).0, ops[1..])
  }

  function MapAnswers<T>(zero: T, m: map<string, T>, ops: seq<Operation<T>>): seq<Answer<T>>
    decreases |ops|
  {
    if ops == [] then []
    else [OnMap(zero, m, ops[0]).1] + MapAnswers(zero, OnMap(zero, m, ops[0]).0, ops[1..])
  }

  /** No sequence of operations tells the file store from the plain map. */
  lemma {:induction false} AnswersAgree<T(!new)>(zero: T, d: Disk<T>, ops: seq<Operation<T>>)
    requires Coherent(d)
    ensures DiskAnswers(zero, d, ops) == MapAnswers(zero, Contents(d), ops)
    ensures Coherent(DiskAfter(zero, d, ops))
    decreases |ops|
  {
    hide Coherent, Contents, OnDisk, OnMap;
    if ops != [] {
      Simulates(zero, d, ops[0]);
      AnswersAgree(zero, OnDisk(zero, d, ops[0]).0, ops[1..]);
    }
  }

  /** Nor does reopening the file, with an empty cache, in between. */
  lemma ReopeningIsInvisible<T(!new)>(zero: T, file: Option<map<string, T>>, before: seq<Operation<T>>,
                                      after: seq<Operation<T>>)
    ensures var d := DiskAfter(zero, Disk(map[], file), before);
            DiskAnswers(zero, d, after) == DiskAnswers(zero, Disk(map[], d.file), after)
  {
    AnswersAgree(zero, Disk(map[], file), before);
    var d := DiskAfter(zero, Disk(map[], file), before);
    AnswersAgree(zero, d, after);
    AnswersAgree(zero, Disk(map[], d.file), after);
  }

  // ---------- The object ----------

  lemma AKey(keys: set<string>) returns (key: string)
    requires keys != {}
    ensures key in keys
  {
    key :| key in keys;
  }

  /** `all` lists what `done` holds, in the order of `keys`. */
  ghost predicate Lists<T>(all: seq<T>, keys: seq<string>, done: map<string, T>) {
    && NoDup(keys) && (forall key :: key in keys <==> key in done)
    && |all| == |keys| && forall i :: 0 <= i < |all| ==> keys[i] in done && all[i] == done[keys[i]]
  }

  lemma NothingListed<T>()
    ensures Lists<T>([], [], map[])
  {
  }

  lemma ListsNext<T>(all: seq<T>, keys: seq<string>, done: map<string, T>, key: string, value: T)
    requires Lists(all, keys, done) && key !in done
    ensures Lists(all + [value], keys + [key], done[key := value])
  {
    forall i | 0 <= i < |keys| ensures keys[i] != key {
      assert keys[i] in keys;
    }
  }

  /** One turn of a loop over `store`. */
  lemma DoneNext<T>(store: map<string, T>, done: map<string, T>, todo: set<string>, cache: map<string, T>, key: string)
    requires done == store - todo && key in todo && key in store
    ensures done[key := store[key]] == store - (todo - {key})
    ensures (cache + done)[key := store[key]] == cache + done[key := store[key]]
    ensures key !in done
  {
  }

  lemma LoadAllMeans<T>(zero: T, d: Disk<T>)
    ensures OnDisk(zero, d, LoadAll).0 == Disk(d.cache + Contents(d), d.file)
    ensures Contents(d) == if d.file.Some? then d.file.value else map[]
  {
    assert d.cache + map[] == d.cache;
  }

  class FileStore<T> {
    const zero: T
    var cache: map<string, T>
    var file: Option<map<string, T>>

    ghost function View(): Disk<T>
      reads this
    {
      Disk(cache, file)
    }

    /** Opens a file, which may hold the entries of an earlier process. */
    constructor (zero: T, file: Option<map<string, T>>)
      ensures this.zero == zero && View() == Disk(map[], file)
    {
      this.zero, this.file, cache := zero, file, map[];
    }

    method Save(key: string, data: T)
      modifies this
      ensures View() == OnDisk(zero, old(View()), Operation.Save(key, data)).0
    {
      cache := cache[key := data];
      var store := map[];
      if file.Some? {
        store := file.value;
      }
      store := store[key := data];
      file := Some(store);
    }

    method Load(key: string) returns (data: T)
      modifies this`cache
      ensures (View(), Loaded(data)) == OnDisk(zero, old(View()), Operation.Load(key))
    {
      if key in cache {
        return cache[key];
      }
      if file.None? {
        return zero;
      }
      cache := cache + file.value;
      data := if key in cache then cache[key] else zero;
    }

    method LoadAll() returns (all: seq<T>, ghost keys: seq<string>)
      modifies this`cache
      ensures View() == OnDisk(zero, old(View()), Operation.LoadAll).0
      ensures Lists(all, keys, Contents(old(View())))
    {
      LoadAllMeans(zero, View());
      NothingListed<T>();
      if file.None? {
        return [], [];
      }
      all, keys := CacheAll(file.value);
    }

    /** The loop over the decoded file. */
    method CacheAll(store: map<string, T>) returns (all: seq<T>, ghost keys: seq<string>)
      modifies this`cache
      ensures cache == old(cache) + store && Lists(all, keys, store)
    {
      NothingListed<T>();
      hide Lists;
      all, keys := [], [];
      var todo := store.Keys;
      ghost var done := map[];
      assert done == store - todo && cache + done == cache;
      while todo != {}
        invariant todo <= store.Keys && done == store - todo
        invariant cache == old(cache) + done
        invariant Lists(all, keys, done)
        decreases |todo|
      {
        ghost var some := AKey(todo);
        var key :| key in todo;
        DoneNext(store, done, todo, old(cache), key);
        ListsNext(all, keys, done, key, store[key]);
        cache := cache[key := store[key]];
        all, keys := all + [store[key]], keys + [key];
        todo, done := todo - {key}, done[key := store[key]];
      }
      assert done == store;
    }

    method Delete(key: string)
      modifies this
      ensures View() == OnDisk(zero, old(View()), Operation.Delete(key)).0
    {
      cache := cache - {key};
      var store := map[];
      if file.Some? {
        store := file.value;
      }
      store := store - {key};
      file := Some(store);
    }
  }
}
