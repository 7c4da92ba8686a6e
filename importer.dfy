/**
 * The memoising two-tier import resolver: a cache from import path to
 * type-checked package, filled on a miss by the compiled-package importer
 * or, when that fails, by discovering, parsing and type-checking the
 * package's own sources.
 *
 * Every collaborator that is not this resolver's own logic (the compiled
 * importer, `path.Join`, `build.Default.Import`, `parseFiles`,
 * `types.Config.Check`) is a total function value whose outcome the model
 * takes as given.
 */
module ImportResolver {
  import opened Wrappers
  import opened GoErrors

  /** `types.ImportMode`, passed through to the compiled importer untouched. */
  type ImportMode = int

  /** A typed package as produced by an importer or the type checker; only its identity is modelled. */
  type Package(==)

  /** What source discovery (`build.Default.Import`) reports about a package directory. */
  datatype BuildPackage = BuildPackage(dir: string, goFiles: seq<string>, cgoFiles: seq<string>)

  /** A parsed source file; its syntax tree is owned by the parser and not modelled. */
  type ParsedFile

  /** `config.Check` always yields a package, and an error that may be nil. */
  datatype Checked = Checked(pkg: Package, err: Option<Error>)

  /** The `types.ImporterFrom` that the resolver tries first. */
  datatype MainImporter = MainImporter(
    importPath: string -> Result<Package, Error>,
    importFrom: (string, string, ImportMode) -> Result<Package, Error>)

  /** The `types.Config` used on the source path: only its `Check`. */
  datatype Config = Config(check: (string, seq<ParsedFile>) -> Checked)

  /** Process-wide library functions the resolver calls. */
  datatype Toolchain = Toolchain(
    join: (string, string) -> string,
    buildImport: (string, string) -> Result<BuildPackage, Error>,
    parseFiles: (string, seq<string>) -> Result<seq<ParsedFile>, Error>)

  /** The result of one `ImportFrom` call together with the cache it leaves behind. */
  datatype Outcome = Outcome(result: Result<Package, Error>, cache: map<string, Package>)

  /** The file list handed to the parser on the source path: Go files, then cgo files. */
  function SourceFiles(bp: BuildPackage): (files: seq<string>)
    ensures |files| == |bp.goFiles| + |bp.cgoFiles|
    ensures forall k :: 0 <= k < |bp.goFiles| ==> files[k] == bp.goFiles[k]
    ensures forall k :: 0 <= k < |bp.cgoFiles| ==> files[|bp.goFiles| + k] == bp.cgoFiles[k]
  {
    bp.goFiles + bp.cgoFiles
  }

  /**
   * One `ImportFrom(path, srcDir, mode)` against the cache `cache`.
   * The cache only ever grows by the one entry `path`, entries already
   * present are never replaced, and a failed import leaves it untouched.
   */
  function ImportFromSpec(cache: map<string, Package>, cwd: string, main: MainImporter, config: Config,
                          tc: Toolchain, path: string, srcDir: string, mode: ImportMode): (o: Outcome)
    ensures path in cache ==> o == Outcome(Success(cache[path]), cache)
    ensures o.result.Failure? ==> o.cache == cache && path !in cache
    ensures o.result.Success? ==> path in o.cache && o.cache[path] == o.result.value
    ensures o.cache.Keys == cache.Keys + (if o.result.Success? then {path} else {})
    ensures forall k :: k in cache ==> o.cache[k] == cache[k]
  {
    if path in cache then Outcome(Success(cache[path]), cache)
    else
      var fullDir := tc.join(cwd, srcDir);
      match main.importFrom(path, fullDir, mode)
      case Success(pkg) => Outcome(Success(pkg), cache[path := pkg])
      case Failure(_) =>
        match tc.buildImport(path, fullDir)
        case Failure(err) => Outcome(Failure(err), cache)
        case Success(bp) =>
          match tc.parseFiles(bp.dir, SourceFiles(bp))
          case Failure(err) => Outcome(Failure(err), cache)
          case Success(files) =>
            var checked := config.check(path, files);
            Outcome(Success(checked.pkg), cache[path := checked.pkg])
  }

  class Importer {
    const mainImporter: MainImporter
    const cwd: string
    var packages: map<string, Package>
    const config: Config

    /** The struct literal `&Importer{...}` a caller builds. */
    constructor (mainImporter: MainImporter, cwd: string, packages: map<string, Package>, config: Config)
      ensures this.mainImporter == mainImporter && this.cwd == cwd && this.config == config
      ensures this.packages == packages
    {
      this.mainImporter := mainImporter;
      this.cwd := cwd;
      this.packages := packages;
      this.config := config;
    }

    /** Plain delegation to the main importer; the cache is neither read nor written. */
    method Import(path: string) returns (r: Result<Package, Error>)
      ensures r == mainImporter.importPath(path)
    {
      r := mainImporter.importPath(path);
    }

    method ImportFrom(path: string, srcDir: string, mode: ImportMode, tc: Toolchain) returns (r: Result<Package, Error>)
      modifies this`packages
      ensures Outcome(r, packages) == ImportFromSpec(old(packages), cwd, mainImporter, config, tc, path, srcDir, mode)
    {
      if path in packages {
        return Success(packages[path]);
      }
      var fullDir := tc.join(cwd, srcDir);
      var pkg: Package;
      var fast := mainImporter.importFrom(path, fullDir, mode);
      if fast.Failure? {
        var buildPkg := tc.buildImport(path, fullDir);
        if buildPkg.Failure? {
          return Failure(buildPkg.error);
        }
        var filenames := SourceFiles(buildPkg.value);
        var files := tc.parseFiles(buildPkg.value.dir, filenames);
        if files.Failure? {
          return Failure(files.error);
        }
        // The error that Check reports is not looked at: the package is cached regardless.
        var checked := config.check(path, files.value);
        pkg := checked.pkg;
      } else {
        pkg := fast.value;
      }
      packages := packages[path := pkg];
      return Success(pkg);
    }
  }

  /** A cache hit is decided by the cache alone: no collaborator is consulted. */
  lemma CacheHitConsultsNothing(cache: map<string, Package>, cwd: string, path: string, srcDir: string, mode: ImportMode,
                                main1: MainImporter, config1: Config, tc1: Toolchain,
                                main2: MainImporter, config2: Config, tc2: Toolchain)
    requires path in cache
    ensures ImportFromSpec(cache, cwd, main1, config1, tc1, path, srcDir, mode)
         == ImportFromSpec(cache, cwd, main2, config2, tc2, path, srcDir, mode)
    ensures ImportFromSpec(cache, cwd, main1, config1, tc1, path, srcDir, mode).result == Success(cache[path])
  {
  }

  /** A successful compiled import is cached under `path` and returned. */
  lemma FastPathStored(cache: map<string, Package>, cwd: string, main: MainImporter, config: Config,
                       tc: Toolchain, path: string, srcDir: string, mode: ImportMode)
    requires path !in cache
    requires main.importFrom(path, tc.join(cwd, srcDir), mode).Success?
    ensures var pkg := main.importFrom(path, tc.join(cwd, srcDir), mode).value;
            ImportFromSpec(cache, cwd, main, config, tc, path, srcDir, mode) == Outcome(Success(pkg), cache[path := pkg])
  {
  }

  /** When both the compiled importer and source discovery fail, discovery's error is returned and nothing is cached. */
  lemma DiscoveryFailurePropagates(cache: map<string, Package>, cwd: string, main: MainImporter, config: Config,
                                   tc: Toolchain, path: string, srcDir: string, mode: ImportMode)
    requires path !in cache
    requires main.importFrom(path, tc.join(cwd, srcDir), mode).Failure?
    requires tc.buildImport(path, tc.join(cwd, srcDir)).Failure?
    ensures ImportFromSpec(cache, cwd, main, config, tc, path, srcDir, mode)
         == Outcome(Failure(tc.buildImport(path, tc.join(cwd, srcDir)).error), cache)
  {
  }

  /** A parse failure of the discovered Go and cgo files is returned and nothing is cached. */
  lemma ParseFailurePropagates(cache: map<string, Package>, cwd: string, main: MainImporter, config: Config,
                               tc: Toolchain, path: string, srcDir: string, mode: ImportMode, bp: BuildPackage)
    requires path !in cache
    requires main.importFrom(path, tc.join(cwd, srcDir), mode).Failure?
    requires tc.buildImport(path, tc.join(cwd, srcDir)) == Success(bp)
    requires tc.parseFiles(bp.dir, bp.goFiles + bp.cgoFiles).Failure?
    ensures ImportFromSpec(cache, cwd, main, config, tc, path, srcDir, mode)
         == Outcome(Failure(tc.parseFiles(bp.dir, bp.goFiles + bp.cgoFiles).error), cache)
  {
  }

  /**
   * On the source path whatever `Check` returns is cached and returned as a
   * success, even when `Check` reported an error: that error is dropped.
   */
  lemma CheckErrorDiscarded(cache: map<string, Package>, cwd: string, main: MainImporter, config: Config,
                            tc: Toolchain, path: string, srcDir: string, mode: ImportMode,
                            bp: BuildPackage, files: seq<ParsedFile>)
    requires path !in cache
    requires main.importFrom(path, tc.join(cwd, srcDir), mode).Failure?
    requires tc.buildImport(path, tc.join(cwd, srcDir)) == Success(bp)
    requires tc.parseFiles(bp.dir, bp.goFiles + bp.cgoFiles) == Success(files)
    ensures var pkg := config.check(path, files).pkg;
            ImportFromSpec(cache, cwd, main, config, tc, path, srcDir, mode) == Outcome(Success(pkg), cache[path := pkg])
  {
  }

  /**
   * Idempotence: once an import of `path` has succeeded, importing `path`
   * again, from any directory and with any collaborators, is a cache hit
   * that returns the identical package and leaves the cache as it is.
   */
  lemma SecondImportIsCacheHit(cache: map<string, Package>, cwd: string, main: MainImporter, config: Config,
                               tc: Toolchain, path: string, srcDir: string, mode: ImportMode,
                               main2: MainImporter, config2: Config, tc2: Toolchain, srcDir2: string, mode2: ImportMode)
    requires ImportFromSpec(cache, cwd, main, config, tc, path, srcDir, mode).result.Success?
    ensures var first := ImportFromSpec(cache, cwd, main, config, tc, path, srcDir, mode);
            ImportFromSpec(first.cache, cwd, main2, config2, tc2, path, srcDir2, mode2) == first
  {
  }

  /**
   * Failures are not cached: after a failed import of `path` the next
   * import of `path` asks the collaborators again, and may then succeed.
   */
  lemma FailureRetried(cache: map<string, Package>, cwd: string, main: MainImporter, config: Config,
                       tc: Toolchain, path: string, srcDir: string, mode: ImportMode,
                       main2: MainImporter, pkg: Package)
    requires ImportFromSpec(cache, cwd, main, config, tc, path, srcDir, mode).result.Failure?
    requires main2.importFrom(path, tc.join(cwd, srcDir), mode) == Success(pkg)
    ensures var first := ImportFromSpec(cache, cwd, main, config, tc, path, srcDir, mode);
            ImportFromSpec(first.cache, cwd, main2, config, tc, path, srcDir, mode).result == Success(pkg)
  {
  }
}
