/**
 File digests cached under (size, mtime). The cache refines plain hashing as long as every copy onto
 a path, which keeps the source's mtime, is followed by an uncached hash before the next cached one.
 */
module DigestCache {
  import opened Prelude

  type Bytes = seq<bv8>
  type Path = string

  /** SHA-256 stays uninterpreted: everything below holds for any function from contents to digests. */
  type Digester = Bytes -> string

  datatype File = File(content: Bytes, mtime: int)

  datatype Entry = Entry(size: nat, mtime: int, digest: string)

  type Files = map<Path, File>
  type Cache = map<Path, Entry>

  const CACHE_MAX := 512

  predicate Hit(cache: Cache, files: Files, path: Path) {
    path in files && path in cache
    && cache[path].size == |files[path].content| && cache[path].mtime == files[path].mtime
  }

  function Stored(cache: Cache, path: Path, entry: Entry): Cache {
    (if |cache| >= CACHE_MAX then map[] else cache)[path := entry]
  }

  /** The cache after a call, and its result; None when the file cannot be opened. */
  function Hashing(h: Digester, cache: Cache, files: Files, path: Path, useCache: bool): (Cache, Option<string>) {
    if path !in files then (cache, None)
    else if useCache && Hit(cache, files, path) then (cache, Some(cache[path].digest))
    else
      var f := files[path];
      (Stored(cache, path, Entry(|f.content|, f.mtime, h(f.content))), Some(h(f.content)))
  }

  class DigestCache {
    const h: Digester
    var cache: Cache

    constructor (h: Digester)
      ensures this.h == h && cache == map[]
    {
      this.h := h;
      cache := map[];
    }

    /** Reads the file in chunks, so that the digest is that of their concatenation. */
    method Sha256File(files: Files, path: Path, chunkSize: nat, useCache: bool) returns (digest: Option<string>)
      requires chunkSize > 0
      requires |cache| <= CACHE_MAX
      modifies this
      ensures (cache, digest) == Hashing(h, old(cache), files, path, useCache)
      ensures |cache| <= CACHE_MAX
      ensures !useCache && path in files ==> digest == Some(h(files[path].content))
    {
      if path !in files {
        return None;
      }
      var f := files[path];
      if useCache {
        if path in cache && cache[path].size == |f.content| && cache[path].mtime == f.mtime {
          return Some(cache[path].digest);
        }
      }
      var data: Bytes := [];
      while |data| < |f.content|
        invariant data <= f.content && cache == old(cache)
        decreases |f.content| - |data|
      {
        var end := if |data| + chunkSize < |f.content| then |data| + chunkSize else |f.content|;
        data := data + f.content[|data|..end];
      }
      assert data == f.content;
      var value := h(data);
      if |cache| >= CACHE_MAX {
        cache := map[];
      }
      SizeAfterStore(cache, path, Entry(|f.content|, f.mtime, value));
      cache := cache[path := Entry(|f.content|, f.mtime, value)];
      return Some(value);
    }
  }

  lemma SizeAfterStore(cache: Cache, path: Path, entry: Entry)
    ensures |cache[path := entry]| <= |cache| + 1
  {
    assert cache[path := entry].Keys == cache.Keys + {path};
  }

  // ----- runs of writes, copies, removals and hash calls -----

  /**
   `copied` and `carried` are history: paths copied onto since their last uncached hash, and every
   mtime a path has had.
   */
  datatype State = State(files: Files, cache: Cache, copied: set<Path>, carried: set<(Path, int)>)

  datatype Op =
    | Write(path: Path, content: Bytes, mtime: int)
    | Copy(source: Path, target: Path)
    | Remove(path: Path)
    | Hash(path: Path, useCache: bool)

  function Next(h: Digester, s: State, op: Op): State {
    match op
    case Write(path, content, mtime) =>
      State(s.files[path := File(content, mtime)], s.cache, s.copied - {path}, s.carried + {(path, mtime)})
    case Copy(source, target) =>
      if source !in s.files || source == target then s
      else
        State(s.files[target := s.files[source]], s.cache, s.copied + {target},
              s.carried + {(target, s.files[source].mtime)})
    case Remove(path) => s.(files := s.files - {path})
    case Hash(path, useCache) =>
      s.(cache := Hashing(h, s.cache, s.files, path, useCache).0,
         copied := if useCache || path !in s.files then s.copied else s.copied - {path})
  }

  /** An ordinary write gets an mtime that the path has not had before. */
  predicate FreshWrite(s: State, op: Op) {
    op.Write? ==> (op.path, op.mtime) !in s.carried
  }

  /** A cached hash in the window between a copy onto its path and the next uncached hash of it. */
  predicate InWindow(s: State, op: Op) {
    op.Hash? && op.useCache && op.path in s.copied
  }

  predicate Disciplined(s: State, op: Op) {
    FreshWrite(s, op) && !InWindow(s, op)
  }

  ghost predicate FreshRun(h: Digester, s: State, ops: seq<Op>)
    decreases |ops|
  {
    ops == [] || (FreshWrite(s, ops[0]) && FreshRun(h, Next(h, s, ops[0]), ops[1..]))
  }

  ghost predicate DisciplinedRun(h: Digester, s: State, ops: seq<Op>)
    decreases |ops|
  {
    ops == [] || (Disciplined(s, ops[0]) && DisciplinedRun(h, Next(h, s, ops[0]), ops[1..]))
  }

  function Run(h: Digester, s: State, ops: seq<Op>): State
    decreases |ops|
  {
    if ops == [] then s else Run(h, Next(h, s, ops[0]), ops[1..])
  }

  /** What the hash calls of a run return. */
  function Results(h: Digester, s: State, ops: seq<Op>): seq<Option<string>>
    decreases |ops|
  {
    if ops == [] then []
    else (if ops[0].Hash? then [Hashing(h, s.cache, s.files, ops[0].path, ops[0].useCache).1] else [])
         + Results(h, Next(h, s, ops[0]), ops[1..])
  }

  /** What a hash call answers without any cache. */
  function Plain(h: Digester, files: Files, path: Path): Option<string> {
    if path in files then Some(h(files[path].content)) else None
  }

  function FilesAfter(files: Files, op: Op): Files {
    match op
    case Write(path, content, mtime) => files[path := File(content, mtime)]
    case Copy(source, target) => if source in files then files[target := files[source]] else files
    case Remove(path) => files - {path}
    case Hash(_, _) => files
  }

  /** What they would return without any cache. */
  function PlainResults(h: Digester, files: Files, ops: seq<Op>): seq<Option<string>>
    decreases |ops|
  {
    if ops == [] then []
    else (if ops[0].Hash? then [Plain(h, files, ops[0].path)] else [])
         + PlainResults(h, FilesAfter(files, ops[0]), ops[1..])
  }

  const INIT := State(map[], map[], {}, {})

  ghost predicate Inv(h: Digester, s: State) {
    && |s.cache| <= CACHE_MAX
    && (forall p :: p in s.cache ==> (p, s.cache[p].mtime) in s.carried)
    && (forall p :: p in s.files ==> (p, s.files[p].mtime) in s.carried)
    && (forall p :: p !in s.copied && Hit(s.cache, s.files, p) ==> s.cache[p].digest == h(s.files[p].content))
  }

  lemma WriteKeepsInv(h: Digester, s: State, op: Op)
    requires Inv(h, s) && FreshWrite(s, op) && op.Write?
    ensures Inv(h, Next(h, s, op))
  {
    var n := Next(h, s, op);
    forall p | p !in n.copied && Hit(n.cache, n.files, p) ensures n.cache[p].digest == h(n.files[p].content) {
      assert (p, s.cache[p].mtime) in s.carried;
      assert Hit(s.cache, s.files, p) && p !in s.copied;
    }
  }

  lemma CopyKeepsInv(h: Digester, s: State, op: Op)
    requires Inv(h, s) && op.Copy?
    ensures Inv(h, Next(h, s, op))
  {
    var n := Next(h, s, op);
    forall p | p !in n.copied && Hit(n.cache, n.files, p) ensures n.cache[p].digest == h(n.files[p].content) {
      assert Hit(s.cache, s.files, p) && p !in s.copied;
    }
  }

  lemma RemoveKeepsInv(h: Digester, s: State, op: Op)
    requires Inv(h, s) && op.Remove?
    ensures Inv(h, Next(h, s, op))
  {
    var n := Next(h, s, op);
    forall p | p !in n.copied && Hit(n.cache, n.files, p) ensures n.cache[p].digest == h(n.files[p].content) {
      assert Hit(s.cache, s.files, p) && p !in s.copied;
    }
  }

  lemma HashKeepsInv(h: Digester, s: State, op: Op)
    requires Inv(h, s) && op.Hash?
    ensures Inv(h, Next(h, s, op))
  {
    if op.path in s.files {
      var f := s.files[op.path];
      SizeAfterStore(if |s.cache| >= CACHE_MAX then map[] else s.cache, op.path,
          Entry(|f.content|, f.mtime, h(f.content)));
    }
  }

  lemma StepKeepsInv(h: Digester, s: State, op: Op)
    requires Inv(h, s) && FreshWrite(s, op)
    ensures Inv(h, Next(h, s, op))
  {
    match op
    case Write(_, _, _) => WriteKeepsInv(h, s, op);
    case Copy(_, _) => CopyKeepsInv(h, s, op);
    case Remove(_) => RemoveKeepsInv(h, s, op);
    case Hash(_, _) => HashKeepsInv(h, s, op);
  }

  lemma FilesFollow(h: Digester, s: State, op: Op)
    ensures Next(h, s, op).files == FilesAfter(s.files, op)
  {
    if op.Copy? && op.source == op.target && op.source in s.files {
      assert s.files[op.target := s.files[op.source]] == s.files;
    }
  }

  /** Refinement: over any disciplined run, the cache never exceeds its limit and is never noticed. */
  lemma {:induction false} CacheRefinesPlainHashing(h: Digester, s: State, ops: seq<Op>)
    requires Inv(h, s) && DisciplinedRun(h, s, ops)
    ensures Results(h, s, ops) == PlainResults(h, s.files, ops)
    ensures Inv(h, Run(h, s, ops))
    decreases |ops|
  {
    if ops != [] {
      var op := ops[0];
      StepKeepsInv(h, s, op);
      CacheRefinesPlainHashing(h, Next(h, s, op), ops[1..]);
      FilesFollow(h, s, op);
    }
  }

  /** Every hash call of the run that is not in a window answers with the digest of the content. */
  ghost predicate TrueOutsideWindows(h: Digester, s: State, ops: seq<Op>)
    decreases |ops|
  {
    ops == []
    || (&& (ops[0].Hash? && !InWindow(s, ops[0]) ==>
              Hashing(h, s.cache, s.files, ops[0].path, ops[0].useCache).1 == Plain(h, s.files, ops[0].path))
        && TrueOutsideWindows(h, Next(h, s, ops[0]), ops[1..]))
  }

  /** Calls in a window, by whomever, spoil no call outside of one: the uncached hash repairs the cache. */
  lemma {:induction false} OnlyWindowsCanBeStale(h: Digester, s: State, ops: seq<Op>)
    requires Inv(h, s) && FreshRun(h, s, ops)
    ensures TrueOutsideWindows(h, s, ops) && Inv(h, Run(h, s, ops))
    decreases |ops|
  {
    if ops != [] {
      StepKeepsInv(h, s, ops[0]);
      OnlyWindowsCanBeStale(h, Next(h, s, ops[0]), ops[1..]);
    }
  }

  // ----- any run at all -----

  /**
   The versions of files that have been read since the cache was last emptied, from the files and the
   calls alone. A cached call reads the file unless its version there has this size and mtime already.
   */
  type Versions = map<Path, File>

  predicate LooksRead(read: Versions, files: Files, path: Path) {
    path in files && path in read && |read[path].content| == |files[path].content|
    && read[path].mtime == files[path].mtime
  }

  function Reading(read: Versions, files: Files, path: Path, useCache: bool): Versions {
    if path !in files || (useCache && LooksRead(read, files, path)) then read
    else (if |read| >= CACHE_MAX then map[] else read)[path := files[path]]
  }

  function ReadAlong(read: Versions, files: Files, ops: seq<Op>): Versions
    decreases |ops|
  {
    if ops == [] then read
    else
      ReadAlong(if ops[0].Hash? then Reading(read, files, ops[0].path, ops[0].useCache) else read,
                FilesAfter(files, ops[0]), ops[1..])
  }

  /** The cache holds sizes, mtimes and digests of those versions, and of nothing else. */
  ghost predicate Remembers(h: Digester, cache: Cache, read: Versions) {
    && cache.Keys == read.Keys
    && forall p :: p in read ==> cache[p] == Entry(|read[p].content|, read[p].mtime, h(read[p].content))
  }

  lemma HashingRemembers(h: Digester, cache: Cache, read: Versions, files: Files, path: Path, useCache: bool)
    requires Remembers(h, cache, read)
    ensures Remembers(h, Hashing(h, cache, files, path, useCache).0, Reading(read, files, path, useCache))
  {
    assert |cache| == |cache.Keys| && |read| == |read.Keys|;
    assert LooksRead(read, files, path) <==> Hit(cache, files, path);
  }

  lemma {:induction false} RunRemembers(h: Digester, s: State, ops: seq<Op>, read: Versions)
    requires Remembers(h, s.cache, read)
    ensures Remembers(h, Run(h, s, ops).cache, ReadAlong(read, s.files, ops))
    decreases |ops|
  {
    if ops != [] {
      var op := ops[0];
      if op.Hash? {
        HashingRemembers(h, s.cache, read, s.files, op.path, op.useCache);
      }
      FilesFollow(h, s, op);
      RunRemembers(h, Next(h, s, op), ops[1..],
                   if op.Hash? then Reading(read, s.files, op.path, op.useCache) else read);
    }
  }

  /**
   After any run, with whatever mtimes and in whatever order: a cached hash is right exactly if no
   version of the file has been read since the cache was last emptied, or size or mtime tell that
   version and the present one apart, or their digests agree anyway.
   */
  lemma CachedHashExact(h: Digester, ops: seq<Op>, path: Path)
    requires path in Run(h, INIT, ops).files
    ensures var s, read := Run(h, INIT, ops), ReadAlong(map[], map[], ops);
            var now := s.files[path];
            Hashing(h, s.cache, s.files, path, true).1 == Plain(h, s.files, path) <==>
              path !in read || |now.content| != |read[path].content| || now.mtime != read[path].mtime
                || h(now.content) == h(read[path].content)
  {
    RunRemembers(h, INIT, ops, map[]);
  }

  /** Without the uncached hash after a copy, equal size and mtime are enough to return the old digest. */
  lemma CopyDefeatsTheKey(h: Digester, s: State, source: Path, target: Path)
    requires source in s.files && Hit(s.cache, s.files, target) && s.cache[target].digest == h(s.files[target].content)
    requires |s.files[source].content| == |s.files[target].content| && s.files[source].mtime == s.files[target].mtime
    requires h(s.files[source].content) != h(s.files[target].content)
    ensures var ops := [Copy(source, target), Hash(target, true)];
            && Results(h, s, ops) == [Some(h(s.files[target].content))]
            && PlainResults(h, s.files, ops) == [Some(h(s.files[source].content))]
  {
    var ops := [Copy(source, target), Hash(target, true)];
    var m := Next(h, s, ops[0]);
    assert ops[1..] == [Hash(target, true)] && ops[1..][1..] == [];
    assert Results(h, m, ops[1..]) == [Some(m.cache[target].digest)];
    assert PlainResults(h, m.files, ops[1..]) == [Some(h(s.files[source].content))];
  }

  // ----- what the packaging code does -----

  /** Saving a file, packaging a model (copy, then an uncached hash), validating a package (a cached hash). */
  datatype Task =
    | Save(path: Path, content: Bytes, mtime: int)
    | Package(source: Path, target: Path)
    | Validate(path: Path)

  function Ops(task: Task): seq<Op> {
    match task
    case Save(path, content, mtime) => [Write(path, content, mtime)]
    case Package(source, target) => [Copy(source, target), Hash(target, false)]
    case Validate(path) => [Hash(path, true)]
  }

  function AllOps(tasks: seq<Task>): seq<Op> {
    if tasks == [] then [] else Ops(tasks[0]) + AllOps(tasks[1..])
  }

  /** Every save gets an mtime its path has not had. */
  ghost predicate FreshSaves(h: Digester, s: State, tasks: seq<Task>)
    decreases |tasks|
  {
    tasks == []
    || ((tasks[0].Save? ==> (tasks[0].path, tasks[0].mtime) !in s.carried)
        && FreshSaves(h, Run(h, s, Ops(tasks[0])), tasks[1..]))
  }

  lemma {:induction false} RunsCompose(h: Digester, s: State, a: seq<Op>, b: seq<Op>)
    ensures DisciplinedRun(h, s, a + b) <==> DisciplinedRun(h, s, a) && DisciplinedRun(h, Run(h, s, a), b)
    decreases |a|
  {
    if a == [] {
      assert a + b == b;
    } else {
      assert (a + b)[0] == a[0] && (a + b)[1..] == a[1..] + b;
      RunsCompose(h, Next(h, s, a[0]), a[1..], b);
    }
  }

  lemma TaskIsDisciplined(h: Digester, s: State, task: Task)
    requires s.copied == {} && (task.Save? ==> (task.path, task.mtime) !in s.carried)
    ensures DisciplinedRun(h, s, Ops(task)) && Run(h, s, Ops(task)).copied == {}
  {
    var ops := Ops(task);
    var s1 := Next(h, s, ops[0]);
    assert Disciplined(s, ops[0]);
    if task.Package? {
      assert ops[1..] == [Hash(task.target, false)] && ops[1..][1..] == [];
      assert DisciplinedRun(h, s1, ops[1..]);
      var s2 := Next(h, s1, ops[1]);
      assert Run(h, s1, ops[1..]) == Run(h, s2, ops[1..][1..]) == s2;
      assert Run(h, s, ops) == s2;
      assert task.source in s.files || task.target !in s.files ==> s2.copied == {};
    } else {
      assert ops[1..] == [];
      assert Run(h, s, ops) == s1;
    }
  }

  /** In that order, no run of saves, packagings and validations ever sees a stale digest. */
  lemma {:induction false} PackagingIsDisciplined(h: Digester, s: State, tasks: seq<Task>)
    requires s.copied == {} && FreshSaves(h, s, tasks)
    ensures DisciplinedRun(h, s, AllOps(tasks))
    decreases |tasks|
  {
    if tasks != [] {
      TaskIsDisciplined(h, s, tasks[0]);
      PackagingIsDisciplined(h, Run(h, s, Ops(tasks[0])), tasks[1..]);
      RunsCompose(h, s, Ops(tasks[0]), AllOps(tasks[1..]));
    }
  }

  lemma PackagingSeesTrueDigests(h: Digester, tasks: seq<Task>)
    requires FreshSaves(h, INIT, tasks)
    ensures Results(h, INIT, AllOps(tasks)) == PlainResults(h, map[], AllOps(tasks))
    ensures |Run(h, INIT, AllOps(tasks)).cache| <= CACHE_MAX
  {
    PackagingIsDisciplined(h, INIT, tasks);
    CacheRefinesPlainHashing(h, INIT, AllOps(tasks));
  }
}
