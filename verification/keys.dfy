/** How `pd_cache` names things on disk: the namespace directory
    `<cache_base>/<func name>_<f_hash>` and, inside it, the entry file
    `<hash of the pickled arguments>.pkl.gz`. MD5, `pickle.dumps` and
    `inspect.getsourcelines` are not modelled inside; they are values of the
    types below, so every property proved here holds for any of them. */
module Keys {
  import opened Wrappers
  import opened Utf8

  predicate IsHexDigit(c: char) {
    '0' <= c <= '9' || 'a' <= c <= 'f'
  }

  predicate IsHex(s: string) {
    forall i | 0 <= i < |s| :: IsHexDigit(s[i])
  }

  /** What `hashlib.md5(...).hexdigest()` returns: 32 lower-case hex digits. */
  type HexDigest = s: string | |s| == 32 && IsHex(s) witness "00000000000000000000000000000000"

  /** `md5hash`: the hex MD5 digest of a byte string. */
  type Md5 = seq<Byte> -> HexDigest

  /** The library calls the cache relies on: `md5hash`, and `pickle.dumps(_, 1)`
      applied to the positional-argument tuple and to the keyword dict (None when
      the value cannot be pickled). */
  datatype Library<!A> = Library(
    md5hash: Md5,
    dumpsArgs: seq<A> -> Option<seq<Byte>>,
    dumpsKwargs: seq<(string, A)> -> Option<seq<Byte>>)

  /** One call `func(*args, **kw)`; keyword arguments keep their order, as a
      Python dict does. */
  datatype CallArgs<A> = CallArgs(args: seq<A>, kwargs: seq<(string, A)>)

  /** The exceptions a cached call can raise to its caller. */
  datatype Error =
    | SourceUnavailable       // `inspect.getsourcelines` raised
    | PicklingError           // `pickle.dumps` raised on the arguments
    | Raised(message: string) // the wrapped function itself raised

  /** The decorated function: its `__name__`, the lines `inspect.getsourcelines`
      gives for it (None when it raises) and what calling it does. */
  datatype PyFunction<!A, V> = PyFunction(
    name: string,
    sourceLines: Option<seq<string>>,
    body: CallArgs<A> -> Result<V, string>)

  /** `"".join(lines)`. */
  function Join(lines: seq<string>): string {
    if lines == [] then [] else lines[0] + Join(lines[1..])
  }

  /** The total number of characters in some lines. */
  function TotalLength(lines: seq<string>): nat {
    if lines == [] then 0 else |lines[0]| + TotalLength(lines[1..])
  }

  /** Joining two runs of lines joins their joins: no separator is added
      between lines. */
  lemma {:induction false} JoinAppend(a: seq<string>, b: seq<string>)
    ensures Join(a + b) == Join(a) + Join(b)
  {
    if a == [] {
      assert a + b == b;
    } else {
      assert (a + b)[0] == a[0] && (a + b)[1..] == a[1..] + b;
      JoinAppend(a[1..], b);
    }
  }

  /** The joined source has exactly the characters of its lines, and each
      line appears in it at the offset of the lines before it. */
  lemma {:induction false} JoinLines(lines: seq<string>, i: nat)
    requires i < |lines|
    ensures |Join(lines)| == TotalLength(lines)
    ensures var at := TotalLength(lines[..i]);
            at + |lines[i]| <= |Join(lines)| && Join(lines)[at..at + |lines[i]|] == lines[i]
  {
    assert lines == lines[..i] + [lines[i]] + lines[i + 1..];
    JoinAppend(lines[..i] + [lines[i]], lines[i + 1..]);
    JoinAppend(lines[..i], [lines[i]]);
    assert Join([lines[i]]) == lines[i] by {
      assert [lines[i]][1..] == [];
    }
    JoinLength(lines[..i]);
    JoinLength(lines);
  }

  lemma {:induction false} JoinLength(lines: seq<string>)
    ensures |Join(lines)| == TotalLength(lines)
  {
    if lines != [] {
      JoinLength(lines[1..]);
    }
  }

  /** `source_code(func)`: the source lines joined together. */
  function SourceCode<A, V>(f: PyFunction<A, V>): (r: Result<string, Error>)
    ensures r.Err? <==> f.sourceLines.None?
    ensures r.Err? ==> r.error == SourceUnavailable
    ensures r.Ok? ==> |r.value| == TotalLength(f.sourceLines.value)
    ensures r.Ok? ==>
              var lines := f.sourceLines.value;
              forall i | 0 <= i < |lines| ::
                TotalLength(lines[..i]) + |lines[i]| <= |r.value|
                && r.value[TotalLength(lines[..i])..TotalLength(lines[..i]) + |lines[i]|] == lines[i]
  {
    match f.sourceLines
    case None => Err(SourceUnavailable)
    case Some(lines) =>
      JoinLength(lines);
      assert forall i | 0 <= i < |lines| ::
               TotalLength(lines[..i]) + |lines[i]| <= |Join(lines)|
               && Join(lines)[TotalLength(lines[..i])..TotalLength(lines[..i]) + |lines[i]|] == lines[i] by {
        forall i | 0 <= i < |lines|
          ensures TotalLength(lines[..i]) + |lines[i]| <= |Join(lines)|
          ensures Join(lines)[TotalLength(lines[..i])..TotalLength(lines[..i]) + |lines[i]|] == lines[i]
        {
          JoinLines(lines, i);
        }
      }
      Ok(Join(lines))
  }

  /** `md5hash(x)[:6]`, the short hash used in every name. */
  function ShortHash(md5: Md5, data: seq<Byte>): (r: string)
    ensures |r| == 6 && IsHex(r)
    ensures r <= md5(data)
  {
    md5(data)[..6]
  }

  /** `f_hash`: the namespace suffix. With `use_code` it is the short hash of
      the UTF-8 source; without it, the constant "-1". */
  function FunctionHash<A, V>(md5: Md5, useCode: bool, f: PyFunction<A, V>): (r: Result<string, Error>)
    ensures !useCode ==> r == Ok("-1")
    ensures useCode ==> (r.Err? <==> f.sourceLines.None?)
    ensures r.Err? ==> r.error == SourceUnavailable
    ensures useCode && r.Ok? ==>
              |r.value| == 6 && IsHex(r.value) && r.value <= md5(Encode(SourceCode(f).value))
    ensures r.Ok? ==> '_' !in r.value
  {
    if useCode then
      match SourceCode(f)
      case Err(e) => Err(e)
      case Ok(src) => Ok(ShortHash(md5, Encode(src)))
    else
      Ok("-1")
  }

  /** The namespace directory name `f"{func.__name__}_{f_hash}"`. */
  function DirName(name: string, fhash: string): (r: string)
    ensures |r| == |name| + 1 + |fhash|
  {
    name + "_" + fhash
  }

  /** The position of the last `c` in `s`. */
  function LastIndexOf(s: string, c: char): (r: Option<nat>)
    ensures r.None? <==> c !in s
    ensures r.Some? ==> r.value < |s| && s[r.value] == c && c !in s[r.value + 1..]
  {
    if s == [] then None
    else if s[|s| - 1] == c then Some(|s| - 1)
    else
      var r := LastIndexOf(s[..|s| - 1], c);
      assert s == s[..|s| - 1] + [s[|s| - 1]];
      r
  }

  /** Reads a namespace directory name back as (function name, f_hash),
      splitting at the last underscore. */
  function SplitDirName(d: string): (r: Option<(string, string)>)
    ensures r.Some? ==> '_' !in r.value.1 && DirName(r.value.0, r.value.1) == d
  {
    match LastIndexOf(d, '_')
    case None => None
    case Some(i) =>
      assert d == d[..i] + "_" + d[i + 1..];
      Some((d[..i], d[i + 1..]))
  }

  /** The namespace directory, `cache_base / DirName(...)`. */
  function NamespaceDir(cacheBase: seq<string>, name: string, fhash: string): (r: seq<string>)
    ensures |r| == |cacheBase| + 1 && r[..|cacheBase|] == cacheBase
  {
    cacheBase + [DirName(name, fhash)]
  }

  /** `pickle.dumps(args, 1) + pickle.dumps(kw, 1)`: positional arguments
      first, keyword arguments after; None when either cannot be pickled. */
  function ArgKey<A>(lib: Library<A>, call: CallArgs<A>): (r: Option<seq<Byte>>)
    ensures r.Some? <==> lib.dumpsArgs(call.args).Some? && lib.dumpsKwargs(call.kwargs).Some?
    ensures r.Some? ==>
              var a := lib.dumpsArgs(call.args).value;
              |a| <= |r.value| && r.value[..|a|] == a && r.value[|a|..] == lib.dumpsKwargs(call.kwargs).value
  {
    match (lib.dumpsArgs(call.args), lib.dumpsKwargs(call.kwargs))
    case (Some(a), Some(k)) => Some(a + k)
    case _ => None
  }

  /** The entry file name `f"{hsh}.pkl.gz"`. */
  function EntryFileName(hsh: string): (r: string)
    ensures |r| == |hsh| + 7 && r[..|hsh|] == hsh && r[|hsh|..] == ".pkl.gz"
  {
    hsh + ".pkl.gz"
  }

  /** The entry file name for one call, or the pickling error it raises. */
  function EntryName<A>(lib: Library<A>, call: CallArgs<A>): (r: Result<string, Error>)
    ensures r.Err? <==> ArgKey(lib, call).None?
    ensures r.Err? ==> r.error == PicklingError
    ensures r.Ok? ==>
              |r.value| == 13 && IsHex(r.value[..6]) && r.value[6..] == ".pkl.gz"
              && r.value[..6] <= lib.md5hash(ArgKey(lib, call).value)
  {
    match ArgKey(lib, call)
    case None => Err(PicklingError)
    case Some(key) => Ok(EntryFileName(ShortHash(lib.md5hash, key)))
  }

  /** The last `c` in `p + [c] + t` is the one after `p` when `t` has none. */
  lemma {:induction false} LastIndexAfter(p: string, c: char, t: string)
    requires c !in t
    ensures LastIndexOf(p + [c] + t, c) == Some(|p|)
  {
    var s := p + [c] + t;
    if t != [] {
      assert s[|s| - 1] == t[|t| - 1] && t[|t| - 1] in t;
      assert s[..|s| - 1] == p + [c] + t[..|t| - 1];
      LastIndexAfter(p, c, t[..|t| - 1]);
    }
  }

  /** A directory name determines the function name and suffix it was built
      from, whenever the suffix has no underscore (true of every f_hash). */
  lemma DirNameRoundTrip(name: string, fhash: string)
    requires '_' !in fhash
    ensures SplitDirName(DirName(name, fhash)) == Some((name, fhash))
  {
    var d := DirName(name, fhash);
    assert d == name + ['_'] + fhash;
    LastIndexAfter(name, '_', fhash);
    assert d[..|name|] == name && d[|name| + 1..] == fhash;
  }

  /** Two namespaces share a directory name only if they share the function
      name and the suffix. */
  lemma DirNameInjective(n1: string, h1: string, n2: string, h2: string)
    requires '_' !in h1 && '_' !in h2
    ensures DirName(n1, h1) == DirName(n2, h2) <==> n1 == n2 && h1 == h2
  {
    DirNameRoundTrip(n1, h1);
    DirNameRoundTrip(n2, h2);
  }

  /** Entry file names differ exactly when the hashes they were built from do. */
  lemma EntryFileNameInjective(h1: string, h2: string)
    ensures EntryFileName(h1) == EntryFileName(h2) <==> h1 == h2
  {
    if EntryFileName(h1) == EntryFileName(h2) {
      assert |h1| == |h2|;
      assert h1 == EntryFileName(h1)[..|h1|];
    }
  }
}
