/** Dependency discovery: the files an algorithm is identified by, found by following package
    initializers and internal imports from the listed source files. */
module Closure {
  import opened Wrappers

  /** A dotted name, as its parts. */
  type Dotted = seq<string>

  /** A file of the repository: outside every dependency package, a plain module of one, or the
      `__init__` file of a package directory. */
  datatype Source = Foreign(path: string) | Module(package: string, parts: seq<string>) | Initializer(package: string, parts: seq<string>)

  datatype Import =
    | Plain(names: seq<Dotted>)
    | From(level: nat, base: Dotted, aliases: seq<string>)

  /** What reading a file gives: its import statements, unless it does not parse. */
  datatype Content = Unparsable | Imports(statements: seq<Import>)

  /** The repository on disk; `identifier` says which names can be imported. */
  datatype Repo = Repo(files: set<Source>, content: Source -> Content, identifier: string -> bool)

  datatype IdentityError = DuplicateModule | NotImportable | SyntaxFault | Unavailable

  predicate Importable(repo: Repo, name: Dotted) {
    forall i :: 0 <= i < |name| ==> repo.identifier(name[i])
  }

  /** The module a package file is. */
  function NameOf(s: Source): Dotted
    requires !s.Foreign?
  {
    [s.package] + s.parts
  }

  // ---- the module index ------------------------------------------------------------

  /** A name is known if it is the package or a prefix of the name of an importable file. */
  predicate KnownModule(repo: Repo, package: string, name: Dotted) {
    name == [package]
    || (name != [] && exists s :: s in repo.files && !s.Foreign? && s.package == package
                                 && Importable(repo, NameOf(s)) && name <= NameOf(s))
  }

  predicate Indexed(repo: Repo, s: Source) {
    s in repo.files && !s.Foreign? && Importable(repo, NameOf(s))
  }

  /** Two importable files for one module name, which the index refuses. */
  predicate Ambiguous(repo: Repo) {
    exists s :: s in repo.files && s.Module? && Indexed(repo, s) && Initializer(s.package, s.parts) in repo.files
  }

  /** The file of a module name, if there is one: an initializer or a plain module. */
  function SourceOf(repo: Repo, package: string, name: Dotted): Option<Source>
    requires name != [] && name[0] == package
  {
    if Indexed(repo, Initializer(package, name[1..])) then Some(Initializer(package, name[1..]))
    else if Indexed(repo, Module(package, name[1..])) then Some(Module(package, name[1..]))
    else None
  }

  predicate Internal(package: string, name: Dotted) {
    name != [] && name[0] == package
  }

  /** `_resolve_internal_module`: the initializers of every enclosing package, outermost first,
      then the module itself. */
  function Enclosing(repo: Repo, package: string, name: Dotted, k: nat): seq<Source>
    requires Internal(package, name) && k <= |name|
  {
    if k == 0 then []
    else
      var s := Initializer(package, name[1..k]);
      Enclosing(repo, package, name, k - 1) + (if Indexed(repo, s) then [s] else [])
  }

  function ResolvedPaths(repo: Repo, package: string, name: Dotted): seq<Source>
    requires Internal(package, name)
  {
    var paths := Enclosing(repo, package, name, |name|);
    var source := SourceOf(repo, package, name);
    if source.Some? && source.value !in paths then paths + [source.value] else paths
  }

  lemma {:induction false} EnclosingAre(repo: Repo, package: string, name: Dotted, k: nat, s: Source)
    requires Internal(package, name) && k <= |name|
    ensures s in Enclosing(repo, package, name, k)
      <==> Indexed(repo, s) && s.Initializer? && s.package == package && |s.parts| < k && s.parts <= name[1..]
    decreases k
  {
    if k > 0 {
      EnclosingAre(repo, package, name, k - 1, s);
      assert name[1..k] <= name[1..];
      assert s.Initializer? && |s.parts| == k - 1 && s.parts <= name[1..] ==> s.parts == name[1..k];
    }
  }

  /** Resolving a module yields exactly its own file and the initializers of the packages that
      enclose it. */
  lemma {:induction false} ResolvedAre(repo: Repo, package: string, name: Dotted, s: Source)
    requires Internal(package, name)
    ensures s in ResolvedPaths(repo, package, name)
      <==> || (Indexed(repo, s) && s.Initializer? && s.package == package && s.parts <= name[1..])
           || SourceOf(repo, package, name) == Some(s)
  {
    EnclosingAre(repo, package, name, |name|, s);
  }

  // ---- imports ---------------------------------------------------------------------

  /** The package a file's relative imports start from. */
  function CurrentPackage(s: Source): Dotted
    requires !s.Foreign?
  {
    if s.Initializer? then NameOf(s) else NameOf(s)[..|NameOf(s)| - 1]
  }

  /** `_resolve_import_from_base`: level 0 is absolute; each further dot goes one package up,
      and not beyond the top. */
  function FromBase(level: nat, base: Dotted, current: Dotted): Option<Dotted> {
    if level == 0 then (if base == [] then None else Some(base))
    else if level - 1 > |current| then None
    else
      var full := current[..|current| - (level - 1)] + base;
      if full == [] then None else Some(full)
  }

  /** The internal names an import statement asks for, and whether each must resolve: a name
      imported from a module may be an attribute of it. */
  function Asked(package: string, current: Dotted, statement: Import): set<(Dotted, bool)> {
    match statement
    case Plain(names) => set i | 0 <= i < |names| && Internal(package, names[i]) :: (names[i], true)
    case From(level, base, aliases) =>
      var from := FromBase(level, base, current);
      if from.None? || !Internal(package, from.value) then {}
      else {(from.value, true)} + set i | 0 <= i < |aliases| && aliases[i] != "*" :: (from.value + [aliases[i]], false)
  }

  function AskedBy(package: string, current: Dotted, statements: seq<Import>): set<(Dotted, bool)> {
    set i, a | 0 <= i < |statements| && a in Asked(package, current, statements[i]) :: a
  }

  function ImportsOf(repo: Repo, s: Source): set<(Dotted, bool)>
    requires !s.Foreign?
  {
    var content := repo.content(s);
    if content.Unparsable? then {} else AskedBy(s.package, CurrentPackage(s), content.statements)
  }

  // ---- dependencies ----------------------------------------------------------------

  /** The files a file directly depends on: the initializers around it (a plain module has none
      of its own name, unless the index was refused) and what it imports. */
  function Dependencies(repo: Repo, s: Source): set<Source> {
    if s.Foreign? then {}
    else
      (set d | d in Enclosing(repo, s.package, NameOf(s), |NameOf(s)|)) + ImportedFiles(repo, s.package, ImportsOf(repo, s))
  }

  function ImportedFiles(repo: Repo, package: string, imports: set<(Dotted, bool)>): set<Source> {
    set a, d | a in imports && Internal(package, a.0) && KnownModule(repo, package, a.0) && d in ResolvedPaths(repo, package, a.0) :: d
  }

  /** A file that cannot be processed: not importable, not parsable, or missing a required
      internal module. */
  function Fault(repo: Repo, s: Source): Option<IdentityError> {
    if s.Foreign? then None
    else if !Importable(repo, NameOf(s)) then Some(NotImportable)
    else if repo.content(s).Unparsable? then Some(SyntaxFault)
    else if exists a :: a in ImportsOf(repo, s) && a.1 && !KnownModule(repo, s.package, a.0) then Some(Unavailable)
    else None
  }

  lemma {:induction false} DependenciesExist(repo: Repo, s: Source)
    ensures Dependencies(repo, s) <= repo.files
  {
    if !s.Foreign? {
      forall d | d in Dependencies(repo, s) ensures d in repo.files {
        EnclosingAre(repo, s.package, NameOf(s), |NameOf(s)|, d);
        if d in ImportedFiles(repo, s.package, ImportsOf(repo, s)) {
          var a :| a in ImportsOf(repo, s) && Internal(s.package, a.0) && d in ResolvedPaths(repo, s.package, a.0);
          ResolvedAre(repo, s.package, a.0, d);
        }
      }
    }
  }

  // ---- the least closed set --------------------------------------------------------

  /** Reachable from the seeds in at most n steps. */
  ghost predicate Within(repo: Repo, seeds: set<Source>, s: Source, n: nat)
    decreases n
  {
    s in seeds || (n > 0 && exists t :: Within(repo, seeds, t, n - 1) && s in Dependencies(repo, t))
  }

  ghost predicate Reachable(repo: Repo, seeds: set<Source>, s: Source) {
    exists n: nat :: Within(repo, seeds, s, n)
  }

  ghost predicate Closed(repo: Repo, sources: set<Source>) {
    forall s :: s in sources ==> Dependencies(repo, s) <= sources
  }

  lemma {:induction false} WithinClosed(repo: Repo, seeds: set<Source>, closed: set<Source>, s: Source, n: nat)
    requires seeds <= closed && Closed(repo, closed) && Within(repo, seeds, s, n)
    ensures s in closed
    decreases n
  {
    hide Dependencies;
    if s !in seeds {
      var t :| Within(repo, seeds, t, n - 1) && s in Dependencies(repo, t);
      WithinClosed(repo, seeds, closed, t, n - 1);
    }
  }

  lemma {:induction false} ReachableStep(repo: Repo, seeds: set<Source>, t: Source, s: Source)
    requires Reachable(repo, seeds, t) && s in Dependencies(repo, t)
    ensures Reachable(repo, seeds, s)
  {
    hide Dependencies;
    var n: nat :| Within(repo, seeds, t, n);
    assert Within(repo, seeds, s, n + 1);
  }

  /** The reachable files are the least set that holds the seeds and is closed under
      dependencies. */
  lemma {:induction false} ReachableIsLeast(repo: Repo, seeds: set<Source>, closed: set<Source>, s: Source)
    requires seeds <= closed && Closed(repo, closed) && Reachable(repo, seeds, s)
    ensures s in closed
  {
    var n: nat :| Within(repo, seeds, s, n);
    WithinClosed(repo, seeds, closed, s, n);
  }

  // ---- the worklist ----------------------------------------------------------------

  /** `_expand_internal_dependency_closure`, taking pending files in any order: it terminates,
      succeeds exactly when no two files are the same module and no reachable file has a fault,
      and returns exactly the reachable files. */
  method Expand(repo: Repo, seeds: set<Source>) returns (r: Result<set<Source>, IdentityError>)
    ensures r.Ok? <==> !Ambiguous(repo) && forall s :: Reachable(repo, seeds, s) ==> Fault(repo, s).None?
    ensures r.Ok? ==> Closed(repo, r.value) && forall s :: s in r.value <==> Reachable(repo, seeds, s)
  {
    hide Dependencies, Fault, Ambiguous;
    if Ambiguous(repo) {
      return Err(DuplicateModule);
    }
    var discovered, processed: set<Source> := seeds, {};
    forall s | s in seeds ensures Reachable(repo, seeds, s) {
      assert Within(repo, seeds, s, 0);
    }
    var pending := seeds;
    while pending != {}
      invariant pending == discovered - processed
      invariant seeds <= discovered <= seeds + repo.files && processed <= discovered
      invariant forall s :: s in discovered ==> Reachable(repo, seeds, s)
      invariant forall s :: s in processed ==> Fault(repo, s).None? && Dependencies(repo, s) <= discovered
      decreases (seeds + repo.files) - processed
    {
      var s :| s in pending;
      var fault := Fault(repo, s);
      if fault.Some? {
        return Err(fault.value);
      }
      var added := AddDependencies(repo, s, discovered);
      forall d | d in Dependencies(repo, s) ensures Reachable(repo, seeds, d) {
        ReachableStep(repo, seeds, s, d);
      }
      DependenciesExist(repo, s);
      discovered, processed := added, processed + {s};
      pending := discovered - processed;
    }
    forall s | s in discovered ensures s in processed {
      assert s in pending || s in processed;
    }
    forall s | Reachable(repo, seeds, s) ensures s in discovered {
      ReachableIsLeast(repo, seeds, discovered, s);
    }
    return Ok(discovered);
  }

  /** The dependencies of one file, added path by path. */
  method AddDependencies(repo: Repo, s: Source, discovered0: set<Source>) returns (discovered: set<Source>)
    ensures discovered == discovered0 + Dependencies(repo, s)
  {
    hide ImportsOf, Enclosing, KnownModule;
    discovered := discovered0;
    if s.Foreign? {
      return;
    }
    var initializers := Enclosing(repo, s.package, NameOf(s), |NameOf(s)|);
    discovered := discovered + set d | d in initializers;
    var imports := ImportsOf(repo, s);
    var left := imports;
    while left != {}
      invariant left <= imports
      invariant discovered == discovered0 + (set d | d in initializers) + ImportedFiles(repo, s.package, imports - left)
      decreases left
    {
      var a :| a in left;
      var seen := imports - left;
      left := left - {a};
      assert imports - left == seen + {a};
      if Internal(s.package, a.0) && KnownModule(repo, s.package, a.0) {
        discovered := discovered + set d | d in ResolvedPaths(repo, s.package, a.0);
        assert ImportedFiles(repo, s.package, seen + {a})
            == ImportedFiles(repo, s.package, seen) + set d | d in ResolvedPaths(repo, s.package, a.0);
      } else {
        assert ImportedFiles(repo, s.package, seen + {a}) == ImportedFiles(repo, s.package, seen);
      }
    }
    assert imports - left == imports;
  }
}
