/** The `cache` closure that `pd_cache(cache_base, use_code)(func)` returns,
    over the part of the filesystem it touches: the set of directories and the
    entry files, each holding one pickled result. */
module PdCache {
  import opened Wrappers
  import opened Utf8
  import opened Keys

  /** A filesystem path, as its components. */
  type Path = seq<string>

  /** An entry file: the namespace directory it sits in and its file name. */
  type EntryKey = (Path, string)

  /** `Path(".pd_cache")`, the default `cache_base`. */
  const DefaultCacheBase: Path := [".pd_cache"]

  /** The directories `mkdir(parents=True)` makes sure exist: every non-empty
      prefix of the path. */
  function Ancestors(p: Path): (r: set<Path>)
    ensures p != [] ==> p in r
    ensures forall i | 0 < i <= |p| :: p[..i] in r
    ensures forall q | q in r :: 0 < |q| <= |p| && p[..|q|] == q
  {
    assert p != [] ==> p[..|p|] == p;
    set i | 0 < i <= |p| :: p[..i]
  }

  /** The ancestors of a path are closed under taking parents. */
  lemma AncestorsClosed(p: Path)
    ensures forall q, i | q in Ancestors(p) && 0 < i < |q| :: q[..i] in Ancestors(p)
  {
    forall q, i | q in Ancestors(p) && 0 < i < |q|
      ensures q[..i] in Ancestors(p)
    {
      assert q[..i] == p[..i];
    }
  }

  /** The directories and entry files, with the value each entry holds. */
  datatype Store<V> = Store(dirs: set<Path>, entries: map<EntryKey, V>)

  /** What a directory tree satisfies: the parents of a directory are
      directories, and every entry file sits in a directory. */
  ghost predicate WellFormed<V>(s: Store<V>) {
    && (forall d, i | d in s.dirs && 0 < i < |d| :: d[..i] in s.dirs)
    && (forall k | k in s.entries :: k.0 in s.dirs)
  }

  /** The configuration the closure captures: `cache_base`, `use_code` and the
      decorated `func`. */
  datatype Wrapper<!A, V> = Wrapper(cacheBase: Path, useCode: bool, func: PyFunction<A, V>)

  /** The result of one call: the new store, what the caller gets, and whether
      `func` itself ran. */
  datatype Outcome<V> = Outcome(store: Store<V>, result: Result<V, Error>, invoked: bool)

  /** The namespace directory of a wrapped function, or the error computing
      `f_hash` raises. */
  function Namespace<A, V>(lib: Library<A>, w: Wrapper<A, V>): (r: Result<Path, Error>)
    ensures r.Err? <==> FunctionHash(lib.md5hash, w.useCode, w.func).Err?
    ensures r.Ok? ==> |r.value| == |w.cacheBase| + 1 && r.value[..|w.cacheBase|] == w.cacheBase
  {
    match FunctionHash(lib.md5hash, w.useCode, w.func)
    case Err(e) => Err(e)
    case Ok(fhash) => Ok(NamespaceDir(w.cacheBase, w.func.name, fhash))
  }

  /** `if not cache_dir.exists(): cache_dir.mkdir(exist_ok=True, parents=True)`. */
  function EnsureDir<V>(s: Store<V>, dir: Path): (r: Store<V>)
    ensures dir != [] ==> dir in r.dirs
    ensures r.entries == s.entries
    ensures s.dirs <= r.dirs
    ensures dir in s.dirs ==> r == s
    ensures dir !in s.dirs ==> r.dirs == s.dirs + Ancestors(dir)
    ensures WellFormed(s) ==> WellFormed(r)
  {
    if dir in s.dirs then s
    else
      AncestorsClosed(dir);
      s.(dirs := s.dirs + Ancestors(dir))
  }

  /** One call of the closure, as a transition of the store. */
  function Step<A, V>(lib: Library<A>, w: Wrapper<A, V>, s: Store<V>, call: CallArgs<A>): (o: Outcome<V>)
    ensures WellFormed(s) ==> WellFormed(o.store)
    ensures s.dirs <= o.store.dirs
    ensures forall k | k in s.entries :: k in o.store.entries && o.store.entries[k] == s.entries[k]
    ensures |o.store.entries| <= |s.entries| + 1
    ensures o.invoked ==> o.result.Ok? || o.result.error.Raised?
  {
    match Namespace(lib, w)
    case Err(e) => Outcome(s, Err(e), false)
    case Ok(dir) =>
      var s1 := EnsureDir(s, dir);
      match EntryName(lib, call)
      case Err(e) => Outcome(s1, Err(e), false)
      case Ok(file) =>
        var key := (dir, file);
        if key in s1.entries then
          Outcome(s1, Ok(s1.entries[key]), false)
        else
          match w.func.body(call)
          case Err(message) => Outcome(s1, Err(Raised(message)), true)
          case Ok(v) => Outcome(s1.(entries := s1.entries[key := v]), Ok(v), true)
  }

  /** The part of the filesystem the cache reads and writes. */
  class Disk<V> {
    var dirs: set<Path>
    var entries: map<EntryKey, V>

    ghost predicate Valid()
      reads this
    {
      WellFormed(State())
    }

    function State(): Store<V>
      reads this
    {
      Store(dirs, entries)
    }

    /** A filesystem in the given state, possibly holding entries from
        earlier runs. */
    constructor (initial: Store<V>)
      requires WellFormed(initial)
      ensures Valid() && State() == initial
    {
      dirs := initial.dirs;
      entries := initial.entries;
    }

    /** `path.exists()` for a directory. */
    predicate IsDir(p: Path): (r: bool)
      reads this
      ensures r <==> p in State().dirs
    {
      p in dirs
    }

    /** `path.exists()` for an entry file. */
    predicate IsFile(k: EntryKey): (r: bool)
      reads this
      ensures r <==> k in State().entries
    {
      k in entries
    }

    /** `mkdir(exist_ok=True, parents=True)`. */
    method MakeDirs(p: Path)
      requires Valid()
      modifies this
      ensures Valid()
      ensures dirs == old(dirs) + Ancestors(p) && entries == old(entries)
    {
      AncestorsClosed(p);
      dirs := dirs + Ancestors(p);
    }

    /** `pd.read_pickle(f)`: an entry reads back as it was written. */
    method ReadPickle(k: EntryKey) returns (v: V)
      requires k in entries
      ensures v == entries[k]
    {
      v := entries[k];
    }

    /** `df.to_pickle(f)`: writes (or overwrites) one entry in an existing
        directory. */
    method ToPickle(k: EntryKey, v: V)
      requires Valid() && k.0 in dirs
      modifies this
      ensures Valid()
      ensures entries == old(entries)[k := v] && dirs == old(dirs)
    {
      entries := entries[k := v];
    }
  }

  /** The `cache` closure: a decorated function bound to the filesystem it
      caches into. `invocations` records every call that reached `func`. */
  class CachedFunction<!A, V> {
    const lib: Library<A>
    const wrapper: Wrapper<A, V>
    const disk: Disk<V>
    ghost var invocations: seq<CallArgs<A>>

    /** `pd_cache(cache_base, use_code)(func)`; the defaults are those of
        `pd_cache`. Decorating touches neither the filesystem nor `func`. */
    constructor (lib: Library<A>, disk: Disk<V>, func: PyFunction<A, V>,
                 cacheBase: Path := DefaultCacheBase, useCode: bool := true)
      ensures this.lib == lib && this.disk == disk
      ensures wrapper == Wrapper(cacheBase, useCode, func)
      ensures invocations == []
    {
      this.lib := lib;
      this.disk := disk;
      this.wrapper := Wrapper(cacheBase, useCode, func);
      invocations := [];
    }

    /** `cache(*args, **kw)`. */
    method Call(call: CallArgs<A>) returns (r: Result<V, Error>)
      requires disk.Valid()
      modifies this, disk
      ensures disk.Valid()
      ensures var o := Step(lib, wrapper, old(disk.State()), call);
              && disk.State() == o.store
              && r == o.result
              && invocations == old(invocations) + (if o.invoked then [call] else [])
    {
      var fhash: string;
      if wrapper.useCode {
        var source := SourceCode(wrapper.func);
        if source.Err? {
          return Err(source.error);
        }
        fhash := ShortHash(lib.md5hash, Encode(source.value));
      } else {
        fhash := "-1";
      }
      var dir := NamespaceDir(wrapper.cacheBase, wrapper.func.name, fhash);
      if !disk.IsDir(dir) {
        disk.MakeDirs(dir);
      }

      var key := ArgKey(lib, call);
      if key.None? {
        return Err(PicklingError);
      }
      var hsh := ShortHash(lib.md5hash, key.value);
      var f := (dir, EntryFileName(hsh));

      if disk.IsFile(f) {
        var v := disk.ReadPickle(f);
        r := Ok(v);
      } else {
        invocations := invocations + [call];
        var v := wrapper.func.body(call);
        if v.Err? {
          return Err(Raised(v.error));
        }
        disk.ToPickle(f, v.value);
        r := Ok(v.value);
      }
    }
  }
}
