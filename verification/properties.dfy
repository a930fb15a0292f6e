/** What the cache promises across calls: hits, misses, namespaces, and the
    effect of running a batch of calls twice. */
module CacheProperties {
  import opened Wrappers
  import opened Utf8
  import opened Keys
  import opened PdCache

  /** The entry file a call reads or writes, or the error raised before the
      cache gets that far. */
  function EntryOf<A, V>(lib: Library<A>, w: Wrapper<A, V>, call: CallArgs<A>): Result<EntryKey, Error> {
    match Namespace(lib, w)
    case Err(e) => Err(e)
    case Ok(dir) =>
      match EntryName(lib, call)
      case Err(e) => Err(e)
      case Ok(file) => Ok((dir, file))
  }

  /** Hit: a present entry is returned as stored, `func` does not run and no
      entry changes. */
  lemma HitReturnsStored<A, V>(lib: Library<A>, w: Wrapper<A, V>, s: Store<V>, call: CallArgs<A>)
    requires EntryOf(lib, w, call).Ok? && EntryOf(lib, w, call).value in s.entries
    ensures var o := Step(lib, w, s, call);
            && o.result == Ok(s.entries[EntryOf(lib, w, call).value])
            && !o.invoked
            && o.store.entries == s.entries
  {
  }

  /** Miss: `func` runs once; what it returns is stored under the call's entry
      and returned, and every other entry stays as it was. When `func` raises,
      the exception reaches the caller and nothing is stored. */
  lemma MissInvokesAndStores<A, V>(lib: Library<A>, w: Wrapper<A, V>, s: Store<V>, call: CallArgs<A>)
    requires EntryOf(lib, w, call).Ok? && EntryOf(lib, w, call).value !in s.entries
    ensures var o := Step(lib, w, s, call);
            var key := EntryOf(lib, w, call).value;
            && o.invoked
            && (w.func.body(call).Ok? ==>
                  o.result == Ok(w.func.body(call).value)
                  && o.store.entries == s.entries[key := w.func.body(call).value])
            && (w.func.body(call).Err? ==>
                  o.result == Err(Raised(w.func.body(call).error))
                  && o.store.entries == s.entries)
  {
  }

  /** Once `f_hash` is computed, the namespace directory exists after the call;
      it is created with its parents when missing, and the directories are left
      alone when it is already there. */
  lemma NamespaceExistsAfterCall<A, V>(lib: Library<A>, w: Wrapper<A, V>, s: Store<V>, call: CallArgs<A>)
    requires Namespace(lib, w).Ok?
    ensures var o := Step(lib, w, s, call);
            var dir := Namespace(lib, w).value;
            && dir in o.store.dirs
            && (dir in s.dirs ==> o.store.dirs == s.dirs)
            && (dir !in s.dirs ==> o.store.dirs == s.dirs + Ancestors(dir))
  {
  }

  /** When `use_code` is set and the source cannot be read, the call raises
      before touching the filesystem or `func`. */
  lemma SourceUnavailableChangesNothing<A, V>(lib: Library<A>, w: Wrapper<A, V>, s: Store<V>, call: CallArgs<A>)
    requires w.useCode && w.func.sourceLines.None?
    ensures Step(lib, w, s, call) == Outcome(s, Err(SourceUnavailable), false)
  {
  }

  /** A failed pickle of the arguments raises after the namespace directory
      was made, without running `func` or writing an entry. */
  lemma PicklingErrorAfterMkdir<A, V>(lib: Library<A>, w: Wrapper<A, V>, s: Store<V>, call: CallArgs<A>)
    requires Namespace(lib, w).Ok? && ArgKey(lib, call).None?
    ensures var o := Step(lib, w, s, call);
            && o.result == Err(PicklingError) && !o.invoked
            && o.store == EnsureDir(s, Namespace(lib, w).value)
  {
  }

  /** Repeating a call that succeeded is a hit: same result, `func` does not
      run, nothing on disk changes. */
  lemma SecondCallIsHit<A, V>(lib: Library<A>, w: Wrapper<A, V>, s: Store<V>, call: CallArgs<A>)
    requires Step(lib, w, s, call).result.Ok?
    ensures var o1 := Step(lib, w, s, call);
            Step(lib, w, o1.store, call) == Outcome(o1.store, o1.result, false)
  {
    var o1 := Step(lib, w, s, call);
    var key := EntryOf(lib, w, call).value;
    assert key in o1.store.entries && o1.store.entries[key] == o1.result.value;
  }

  /** The entry name keeps only six hex digits of the hash, so two different
      calls can share an entry; the second is then served the first one's
      result and `func` does not run for it. */
  lemma CollidingCallServedStoredValue<A, V>(lib: Library<A>, w: Wrapper<A, V>, s: Store<V>,
                                             c1: CallArgs<A>, c2: CallArgs<A>)
    requires EntryOf(lib, w, c2) == EntryOf(lib, w, c1)
    requires Step(lib, w, s, c1).result.Ok?
    ensures var o1 := Step(lib, w, s, c1);
            Step(lib, w, o1.store, c2) == Outcome(o1.store, o1.result, false)
  {
    var o1 := Step(lib, w, s, c1);
    var key := EntryOf(lib, w, c1).value;
    assert key in o1.store.entries && o1.store.entries[key] == o1.result.value;
  }

  /** With `use_code` off the namespace ignores the source: after the code of
      `func` changes, results cached by the old code are still served. */
  lemma StaleResultWithoutUseCode<A, V>(lib: Library<A>, original: Wrapper<A, V>, edited: Wrapper<A, V>,
                                        s: Store<V>, call: CallArgs<A>)
    requires !original.useCode && !edited.useCode
    requires edited.cacheBase == original.cacheBase && edited.func.name == original.func.name
    requires Step(lib, original, s, call).result.Ok?
    ensures var o1 := Step(lib, original, s, call);
            Step(lib, edited, o1.store, call) == Outcome(o1.store, o1.result, false)
  {
    var o1 := Step(lib, original, s, call);
    assert EntryOf(lib, edited, call) == EntryOf(lib, original, call);
    assert EntryOf(lib, original, call).value in o1.store.entries;
  }

  /** The namespace depends on the function only through its name and, with
      `use_code`, its source text. */
  lemma NamespaceDependsOnSourceOnly<A, V>(lib: Library<A>, w1: Wrapper<A, V>, w2: Wrapper<A, V>)
    requires w1.cacheBase == w2.cacheBase && w1.useCode == w2.useCode && w1.func.name == w2.func.name
    requires w1.useCode ==> SourceCode(w1.func) == SourceCode(w2.func)
    ensures Namespace(lib, w1) == Namespace(lib, w2)
  {
  }

  /** A namespace directory determines the cache base, the function name and
      `f_hash` it was made from. */
  lemma NamespaceInjective<A, V>(lib: Library<A>, w1: Wrapper<A, V>, w2: Wrapper<A, V>)
    requires Namespace(lib, w1).Ok? && Namespace(lib, w1) == Namespace(lib, w2)
    ensures w1.cacheBase == w2.cacheBase && w1.func.name == w2.func.name
    ensures FunctionHash(lib.md5hash, w1.useCode, w1.func) == FunctionHash(lib.md5hash, w2.useCode, w2.func)
  {
    var h1 := FunctionHash(lib.md5hash, w1.useCode, w1.func).value;
    var h2 := FunctionHash(lib.md5hash, w2.useCode, w2.func).value;
    var p := Namespace(lib, w1).value;
    assert |w1.cacheBase| == |w2.cacheBase|;
    assert p[|p| - 1] == DirName(w1.func.name, h1) == DirName(w2.func.name, h2);
    DirNameInjective(w1.func.name, h1, w2.func.name, h2);
  }

  /** With `use_code`, two functions of the same name whose source texts
      differ share a namespace only through a collision of the six-digit MD5
      prefix on two different byte strings. */
  lemma DistinctSourcesShareNamespaceOnlyByCollision<A, V>(lib: Library<A>, w1: Wrapper<A, V>, w2: Wrapper<A, V>)
    requires w1.useCode && w2.useCode
    requires Namespace(lib, w1).Ok? && Namespace(lib, w1) == Namespace(lib, w2)
    requires SourceCode(w1.func) != SourceCode(w2.func)
    ensures var b1 := Encode(SourceCode(w1.func).value);
            var b2 := Encode(SourceCode(w2.func).value);
            b1 != b2 && ShortHash(lib.md5hash, b1) == ShortHash(lib.md5hash, b2)
  {
    NamespaceInjective(lib, w1, w2);
    EncodeInjective(SourceCode(w1.func).value, SourceCode(w2.func).value);
  }

  /** What a sequence of calls leaves on disk, and how many of them ran `func`. */
  datatype RunResult<V> = RunResult(store: Store<V>, invocations: nat)

  function Run<A, V>(lib: Library<A>, w: Wrapper<A, V>, s: Store<V>, calls: seq<CallArgs<A>>): (r: RunResult<V>)
    ensures r.invocations <= |calls|
    decreases |calls|
  {
    if calls == [] then RunResult(s, 0)
    else
      var o := Step(lib, w, s, calls[0]);
      var rest := Run(lib, w, o.store, calls[1..]);
      RunResult(rest.store, rest.invocations + (if o.invoked then 1 else 0))
  }

  /** The entries a batch of calls ends up storing: one per call whose entry
      name can be computed and whose `func` returns. */
  ghost function StoredKeys<A, V>(lib: Library<A>, w: Wrapper<A, V>, calls: seq<CallArgs<A>>): set<EntryKey> {
    set c | c in calls && EntryOf(lib, w, c).Ok? && w.func.body(c).Ok? :: EntryOf(lib, w, c).value
  }

  lemma StepEntryKeys<A, V>(lib: Library<A>, w: Wrapper<A, V>, s: Store<V>, c: CallArgs<A>)
    ensures Step(lib, w, s, c).store.entries.Keys == s.entries.Keys + StoredKeys(lib, w, [c])
  {
    assert c in [c];
  }

  lemma StoredKeysSplit<A, V>(lib: Library<A>, w: Wrapper<A, V>, calls: seq<CallArgs<A>>)
    requires calls != []
    ensures StoredKeys(lib, w, calls) == StoredKeys(lib, w, [calls[0]]) + StoredKeys(lib, w, calls[1..])
  {
    assert calls == [calls[0]] + calls[1..];
    forall c ensures c in calls <==> c == calls[0] || c in calls[1..] {
    }
  }

  /** After a batch of calls the entries are those there before plus one per
      distinct stored key: repeated arguments add nothing, and new arguments
      add an entry exactly when their key is new. */
  lemma {:induction false} RunEntryKeys<A, V>(lib: Library<A>, w: Wrapper<A, V>, s: Store<V>, calls: seq<CallArgs<A>>)
    ensures Run(lib, w, s, calls).store.entries.Keys == s.entries.Keys + StoredKeys(lib, w, calls)
    decreases |calls|
  {
    if calls != [] {
      var o := Step(lib, w, s, calls[0]);
      StepEntryKeys(lib, w, s, calls[0]);
      RunEntryKeys(lib, w, o.store, calls[1..]);
      StoredKeysSplit(lib, w, calls);
    }
  }

  /** The count of entries after a batch: the old count plus the number of
      stored keys that were not there yet. */
  lemma RunEntryCount<A, V>(lib: Library<A>, w: Wrapper<A, V>, s: Store<V>, calls: seq<CallArgs<A>>)
    ensures |Run(lib, w, s, calls).store.entries| == |s.entries| + |StoredKeys(lib, w, calls) - s.entries.Keys|
  {
    var keys := Run(lib, w, s, calls).store.entries.Keys;
    RunEntryKeys(lib, w, s, calls);
    var added := StoredKeys(lib, w, calls) - s.entries.Keys;
    assert keys == s.entries.Keys + added;
    assert s.entries.Keys !! added;
    assert |keys| == |s.entries.Keys| + |added|;
    assert |Run(lib, w, s, calls).store.entries| == |keys|;
  }

  /** A store already holding the namespace and every entry a batch would
      store. */
  ghost predicate Covers<A, V>(lib: Library<A>, w: Wrapper<A, V>, t: Store<V>, calls: seq<CallArgs<A>>) {
    && (Namespace(lib, w).Ok? ==> Namespace(lib, w).value in t.dirs)
    && StoredKeys(lib, w, calls) <= t.entries.Keys
  }

  lemma {:induction false} CoveredRunChangesNothing<A, V>(lib: Library<A>, w: Wrapper<A, V>, t: Store<V>, calls: seq<CallArgs<A>>)
    requires Covers(lib, w, t, calls)
    ensures Run(lib, w, t, calls).store == t
    ensures (forall c | c in calls :: w.func.body(c).Ok?) ==> Run(lib, w, t, calls).invocations == 0
    decreases |calls|
  {
    if calls != [] {
      var c := calls[0];
      assert c in calls;
      assert Step(lib, w, t, c).store == t;
      assert Step(lib, w, t, c).invoked ==> w.func.body(c).Err?;
      assert StoredKeys(lib, w, calls[1..]) <= StoredKeys(lib, w, calls) by {
        forall k | k in StoredKeys(lib, w, calls[1..]) ensures k in StoredKeys(lib, w, calls) {
          var c' :| c' in calls[1..] && EntryOf(lib, w, c').Ok? && w.func.body(c').Ok? && k == EntryOf(lib, w, c').value;
          assert c' in calls;
        }
      }
      CoveredRunChangesNothing(lib, w, t, calls[1..]);
      assert forall c' | c' in calls[1..] :: c' in calls;
    }
  }

  lemma {:induction false} RunDirs<A, V>(lib: Library<A>, w: Wrapper<A, V>, s: Store<V>, calls: seq<CallArgs<A>>)
    ensures s.dirs <= Run(lib, w, s, calls).store.dirs
    ensures calls != [] && Namespace(lib, w).Ok? ==> Namespace(lib, w).value in Run(lib, w, s, calls).store.dirs
    decreases |calls|
  {
    if calls != [] {
      var o := Step(lib, w, s, calls[0]);
      RunDirs(lib, w, o.store, calls[1..]);
    }
  }

  /** Running the same batch of calls twice: the second run leaves the disk as
      the first left it, and when `func` never raises it does not run at all. */
  lemma RunTwiceChangesNothing<A, V>(lib: Library<A>, w: Wrapper<A, V>, s: Store<V>, calls: seq<CallArgs<A>>)
    ensures var r1 := Run(lib, w, s, calls);
            var r2 := Run(lib, w, r1.store, calls);
            && r2.store == r1.store
            && ((forall c | c in calls :: w.func.body(c).Ok?) ==> r2.invocations == 0)
  {
    var r1 := Run(lib, w, s, calls);
    RunEntryKeys(lib, w, s, calls);
    RunDirs(lib, w, s, calls);
    if calls == [] {
    } else {
      assert Covers(lib, w, r1.store, calls);
      CoveredRunChangesNothing(lib, w, r1.store, calls);
    }
  }
}
