# pandas_cache: the `pd_cache` on-disk memoiser, in Dafny

`pd_cache(cache_base, use_code)` decorates a function that returns a pandas
object. Each call of the decorated function:

1. computes `f_hash`: the first six hex digits of the MD5 of the function's
   UTF-8 source text, or the constant `"-1"` when `use_code` is false;
2. makes sure the namespace directory `cache_base / f"{func.__name__}_{f_hash}"`
   exists, creating it and its parents when it is missing;
3. names the entry file `f"{hsh}.pkl.gz"`, where `hsh` is the first six hex
   digits of the MD5 of `pickle.dumps(args, 1) + pickle.dumps(kw, 1)`;
4. returns the stored value when that file exists (a hit), and otherwise calls
   the function, writes its result to the file and returns it (a miss).

Nothing is ever deleted: entries cached under an earlier version of the
function stay on disk.

The model has five modules:

- `Wrappers` (`wrappers.dfy`): Option and Result.
- `Utf8` (`utf8.dfy`): the UTF-8 encoding applied to the source text, and a strict
  decoder that is its left inverse. Together they show that the encoding is injective.
- `Keys` (`keys.dfy`): `md5hash`, `source_code`, `f_hash`, the namespace
  directory name and the entry file name. MD5 and `pickle.dumps` are values in a
  `Library` record. MD5 has a subset type, "32 lower-case hex digits". The pickler
  returns `None` when it raises. Every property therefore holds for any MD5 and any
  pickler. The decorated function is a `PyFunction`: its `__name__`, the lines
  `inspect.getsourcelines` returns (`None` when that raises) and what calling it
  returns (`Err` when it raises).
- `PdCache` (`pd_cache.dfy`): the filesystem as a set of directories and a map
  from entry files to stored values. `Step` is a pure function that gives the
  effect of one call. The class `Disk` holds the filesystem state. The class
  `CachedFunction` is the `cache` closure. Its `Call` method follows the source
  statement by statement, is proved to agree with `Step`, and logs every run of
  `func` in a ghost sequence.
- `CacheProperties` (`properties.dfy`): the properties of hits, misses,
  namespaces and batches of calls.

The code deletes no namespace and no entry: when a function's source
changes, the results cached under the old `f_hash` stay on disk
(pandas_cache/pandas_cache.py:13). `Step` proves that no entry is ever removed
or overwritten. `f_hash` is computed inside the closure, on every call
(pandas_cache/pandas_cache.py:41-42), and so is it here: a missing source
raises on every call. The model gives a decorated function one fixed list of
source lines, so every call of it computes the same `f_hash`; see
`PdCache.CachedFunction.Call` under "Left out".

## Model

| member | source | states |
|---|---|---|
| `Utf8.Encode` | pandas_cache/pandas_cache.py:42 | `.encode("utf-8")`: each character becomes 1 to 4 bytes, so the length is between `|s|` and `4*|s|`, and only the empty text encodes to no bytes |
| `Utf8.DecodeEncode` | pandas_cache/pandas_cache.py:42 | strict UTF-8 decoding gives back every encoded source text |
| `Utf8.EncodeInjective` | pandas_cache/pandas_cache.py:42 | two different source texts never reach MD5 as the same bytes |
| `Keys.SourceCode` | pandas_cache/pandas_cache.py:32-33 | `source_code` raises `SourceUnavailable` exactly when `inspect.getsourcelines` does; otherwise its text is as long as the lines together and holds each line, in order, right after the lines before it (by the laws `Keys.JoinAppend`, `Keys.JoinLength` and `Keys.JoinLines`) |
| `Keys.JoinAppend` | pandas_cache/pandas_cache.py:33 | `"".join` adds no separator: joining two runs of lines gives the two joins one after the other |
| `Keys.JoinLines` | pandas_cache/pandas_cache.py:33 | the joined source has exactly the characters of its lines, and each line appears in it, in order, right after the lines before it |
| `Keys.JoinLength` | pandas_cache/pandas_cache.py:33 | the joined source is as long as its lines together |
| `Keys.ShortHash` | pandas_cache/pandas_cache.py:28-29 | `md5hash(x)[:6]` is six lower-case hex digits and a prefix of the full digest |
| `Keys.FunctionHash` | pandas_cache/pandas_cache.py:41-44 | without `use_code` the suffix is `"-1"` for any function; with it, the call raises exactly when the source is unavailable, and otherwise the suffix is the 6-digit MD5 prefix of the UTF-8 source; no suffix has an underscore |
| `Keys.DirName` | pandas_cache/pandas_cache.py:45 | the directory name is one character longer than the function name and the suffix together (the separator); what it determines is stated by `Keys.DirNameRoundTrip` |
| `Keys.NamespaceDir` | pandas_cache/pandas_cache.py:45 | the namespace is one level below `cache_base` |
| `Keys.DirNameRoundTrip` | pandas_cache/pandas_cache.py:45 | splitting a directory name at its last underscore gives back the function name and the suffix, whatever the name contains |
| `Keys.DirNameInjective` | pandas_cache/pandas_cache.py:45 | for suffixes without an underscore, which every `f_hash` is, two (name, suffix) pairs give the same directory name if and only if they are equal |
| `Keys.ArgKey` | pandas_cache/pandas_cache.py:51 | the hashed key is the pickled positional arguments followed by the pickled keyword arguments; it fails when either cannot be pickled |
| `Keys.EntryFileName` | pandas_cache/pandas_cache.py:54 | the entry file name is the hash followed by `.pkl.gz` |
| `Keys.EntryName` | pandas_cache/pandas_cache.py:51-54 | a call's entry name is 13 characters: 6 hex digits that prefix the MD5 of its key, then `.pkl.gz`; it raises `PicklingError` exactly when the arguments cannot be pickled |
| `Keys.EntryFileNameInjective` | pandas_cache/pandas_cache.py:54 | two entry file names are equal if and only if their hashes are |
| `PdCache.Ancestors` | pandas_cache/pandas_cache.py:47 | `mkdir(parents=True)` leaves the path and every non-empty prefix of it existing, and nothing else |
| `PdCache.AncestorsClosed` | pandas_cache/pandas_cache.py:47 | the directories `mkdir(parents=True)` creates include the parent of each one |
| `PdCache.Namespace` | pandas_cache/pandas_cache.py:41-45 | a wrapped function's namespace is one level below `cache_base`, or the error raised while computing `f_hash` |
| `PdCache.EnsureDir` | pandas_cache/pandas_cache.py:46-47 | afterwards the directory exists; an existing directory leaves the tree unchanged; a missing one is added with its parents; entries never change; a well-formed tree stays well formed |
| `PdCache.Step` | pandas_cache/pandas_cache.py:39-66 | one call keeps the directory tree well formed and removes or overwrites no directory or entry (old entries stay, line 13); it adds at most one entry; `func` runs only on a path that returns its value or its exception |
| `PdCache.Disk.constructor` | pandas_cache/pandas_cache.py:46 | the filesystem starts in any well-formed state, possibly holding earlier entries |
| `PdCache.Disk.IsDir` | pandas_cache/pandas_cache.py:46 | `cache_dir.exists()` is true exactly when the directory is in the filesystem's directory set |
| `PdCache.Disk.IsFile` | pandas_cache/pandas_cache.py:56 | `f.exists()` is true exactly when the entry file holds a stored value |
| `PdCache.Disk.MakeDirs` | pandas_cache/pandas_cache.py:47 | adds the path and its parents and keeps the tree well formed |
| `PdCache.Disk.ReadPickle` | pandas_cache/pandas_cache.py:57 | an entry reads back as it was written |
| `PdCache.Disk.ToPickle` | pandas_cache/pandas_cache.py:64 | writes exactly one entry into an existing directory |
| `PdCache.CachedFunction.constructor` | pandas_cache/pandas_cache.py:36-38 | decorating records `cache_base` (default `.pd_cache`), `use_code` (default true) and `func`, and nothing has run yet |
| `PdCache.CachedFunction.Call` | pandas_cache/pandas_cache.py:39-66 | the closure's new filesystem and its result are those `Step` gives, and `func` appears in the invocation log exactly when `Step` says it ran |
| `CacheProperties.HitReturnsStored` | pandas_cache/pandas_cache.py:56-59 | when the entry exists, the stored value is returned, `func` does not run and no entry changes |
| `CacheProperties.MissInvokesAndStores` | pandas_cache/pandas_cache.py:61-66 | when the entry is missing, `func` runs; its value is stored at that key and returned, and every other entry stays the same; if `func` raises, the exception reaches the caller and nothing is stored |
| `CacheProperties.NamespaceExistsAfterCall` | pandas_cache/pandas_cache.py:46-47 | after `f_hash` is computed the namespace exists; if it existed before, the directories are unchanged; if not, it was added with its parents |
| `CacheProperties.SourceUnavailableChangesNothing` | pandas_cache/pandas_cache.py:41-42 | with `use_code` and no source, the call raises before touching the disk or `func` |
| `CacheProperties.PicklingErrorAfterMkdir` | pandas_cache/pandas_cache.py:46-51 | unpicklable arguments raise after the namespace is created, and nothing is invoked or stored |
| `CacheProperties.SecondCallIsHit` | pandas_cache/pandas_cache.py:56-59 | repeating a successful call returns the same value, does not run `func` and changes nothing |
| `CacheProperties.CollidingCallServedStoredValue` | pandas_cache/pandas_cache.py:52-56 | a different call whose 6-digit key equals an earlier one's is served the earlier result, and `func` does not run |
| `CacheProperties.StaleResultWithoutUseCode` | pandas_cache/pandas_cache.py:43-45 | with `use_code` off, after the function's code changes, the old cached results are still served |
| `CacheProperties.NamespaceDependsOnSourceOnly` | pandas_cache/pandas_cache.py:41-45 | the namespace depends on the function only through its name and, with `use_code`, its source text |
| `CacheProperties.NamespaceInjective` | pandas_cache/pandas_cache.py:45 | one namespace directory determines the cache base, the function name and `f_hash` |
| `CacheProperties.DistinctSourcesShareNamespaceOnlyByCollision` | pandas_cache/pandas_cache.py:42 | two same-named functions with different sources share a namespace only when MD5 gives two different byte strings the same 6-digit prefix |
| `CacheProperties.Run` | test/test_args.py:62-78 | a batch of calls, one after another, runs `func` at most once per call |
| `CacheProperties.StepEntryKeys` | pandas_cache/pandas_cache.py:56-66 | one call adds its entry key exactly when the key can be computed and `func` returns |
| `CacheProperties.RunEntryKeys` | test/test_args.py:62-78 | after a batch, the entry keys are the earlier ones plus the key of every call that can be pickled and whose `func` returns |
| `CacheProperties.RunEntryCount` | test/test_args.py:66-78 | after a batch, the number of entries grows by the number of distinct new keys: repeated arguments add none, and new arguments add one each when their keys differ |
| `CacheProperties.CoveredRunChangesNothing` | test/test_args.py:68-72 | a batch whose namespace and entries already exist changes nothing on disk; when `func` never raises, it never runs |
| `CacheProperties.RunDirs` | pandas_cache/pandas_cache.py:46-47 | a batch removes no directory, and a non-empty batch leaves the namespace existing |
| `CacheProperties.RunTwiceChangesNothing` | test/test_args.py:68-72 | running the same batch a second time leaves the disk as the first run left it; when `func` never raises, the second run does not run `func` |

## Left out

- MD5, `pickle.dumps` and `inspect.getsourcelines` are foreign library calls. They are parameters: any MD5 function that returns 32 lower-case hex digits, any pickler, and any source lines.
- `pd.read_pickle` and `DataFrame.to_pickle` with gzip are I/O. Entries are values in a map that read back as written.
- PdCache.Disk.ReadPickle: a corrupt entry, a read error and a failed or partial write (lines 57 and 64) are not modelled; reading and writing always succeed.
- Paths are lists of components. Normalisation, absolute and relative roots, a function name containing `/`, and a file where the directory should be are not modelled.
- PdCache.CachedFunction.Call: the decorated function's source lines are fixed for its whole life, whereas `inspect.getsourcelines` re-reads the source file on every call (pandas_cache/pandas_cache.py:42). If the file is edited while the decorated function is alive, the code computes a new `f_hash`. A repeated call then misses, and the result of the old code still running is stored under the new text's namespace. `CacheProperties.SecondCallIsHit`, `CacheProperties.RunTwiceChangesNothing` and `CacheProperties.CoveredRunChangesNothing` hold only while the source file is unchanged.
- Keys.ArgKey: one pickler serves every call of the model, so equal arguments always give equal bytes. In Python, `pickle.dumps` of a set of `str` or `bytes` (as in test/test_args.py:23) depends on the interpreter's hash seed. A later run of the program can then miss on equal arguments and store a second entry.
- Logging (lines 23-25, 48, 58, 65) has no behaviour to verify.
- `functools.wraps` copies metadata only and is not modelled.
- Concurrent callers and the `exist_ok=True` race are left out. The model is sequential.
- The wrapped function is deterministic; any side effect other than its result or its exception is not modelled.
- Deleting stale namespaces and bulk clearing are not in the code, so they are not modelled.
- Python strings that hold lone surrogates, which `.encode("utf-8")` rejects, cannot be written as Dafny strings.
- `timeit` is imported by test/test_args.py but is not part of this model. The test counts `*.h5` files, while the code writes `.pkl.gz` files; the Run lemmas state the counts the test means.
