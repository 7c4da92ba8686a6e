/**
 * The gotype driver: choosing the unit to check from the command-line
 * arguments, the diagnostic filter that scopes errors to one file, the
 * loop that feeds every error of the loaded packages through that filter,
 * and the exit status.
 *
 * The process-wide error counter and the standard-error stream are the
 * fields of a `Process` object. The file system, the working directory,
 * `filepath.Dir`, `filepath.Abs` and `packages.Load` are total function
 * values in a `Host`, whose outcomes the model takes as given.
 */
module Gotype {
  import opened Wrappers
  import opened GoErrors
  import opened GoStrings

  /** An error that `packages.Load` attaches to a loaded package (`packages.Error`). */
  type PkgError = e: Error | e.PackageError? witness PackageError("", "")

  /** The only part of `os.FileInfo` that is consulted. */
  datatype FileInfo = FileInfo(isDir: bool)

  /** The `packages.Config` handed to `packages.Load`; its mode is always `LoadTypes`. */
  datatype LoadConfig = LoadConfig(dir: string, tests: bool)

  /** A loaded root package, seen only through its `Errors`. */
  datatype Root = Root(errors: seq<PkgError>)

  /** The command-line flags `-a`, `-pkg-context` and `-w`. */
  datatype Flags = Flags(autoFiles: bool, usePkgContext: bool, workingDir: string)

  /** The operating system and the loader, as seen from the driver. */
  datatype Host = Host(
    stat: string -> Result<FileInfo, Error>,
    dir: string -> string,
    getwd: Result<string, Error>,
    abs: string -> Result<string, Error>,
    load: (LoadConfig, string) -> Result<seq<Root>, Error>)

  /** The unit to check: a package directory, and the file to restrict errors to ("" for none). */
  datatype Unit = Unit(pkgPath: string, targetFile: string)

  const MoreThanOnePath: Error := OtherError("cannot specify more than one path")

  const TestSuffix: string := "_test.go"

  // ---------------------------------------------------------------------
  // The diagnostic filter

  /**
   * Whether `report` prints `err` under `restriction`: always when there is
   * no restriction or the error is not a `packages.Error`, and otherwise
   * exactly when the text of its position before the first ':' is the
   * restriction.
   */
  predicate Admits(err: Error, restriction: string)
  {
    if restriction != "" && err.PackageError? then Split(err.pos, ':')[0] == restriction
    else true
  }

  /** The errors of `errs` that `report` prints, in order. */
  function Admitted(errs: seq<Error>, restriction: string): (out: seq<Error>)
    ensures |out| <= |errs|
    ensures restriction == "" ==> out == errs
  {
    if errs == [] then []
    else (if Admits(errs[0], restriction) then [errs[0]] else []) + Admitted(errs[1..], restriction)
  }

  /** `Admitted` keeps exactly the admitted errors: each one it keeps is admitted, and none admitted is lost. */
  lemma {:induction false} AdmittedExactly(errs: seq<Error>, restriction: string)
    ensures forall e :: e in Admitted(errs, restriction) ==> e in errs && Admits(e, restriction)
    ensures forall e :: e in errs && Admits(e, restriction) ==> e in Admitted(errs, restriction)
  {
    if errs != [] {
      AdmittedExactly(errs[1..], restriction);
      assert forall e :: e in errs ==> e == errs[0] || e in errs[1..];
    }
  }

  lemma {:induction false} AdmittedAppend(a: seq<Error>, b: seq<Error>, restriction: string)
    ensures Admitted(a + b, restriction) == Admitted(a, restriction) + Admitted(b, restriction)
  {
    if a != [] {
      assert (a + b)[1..] == a[1..] + b;
      AdmittedAppend(a[1..], b, restriction);
    } else {
      assert a + b == b;
    }
  }

  /** Without a restriction, and for an error that is not a `packages.Error`, nothing is filtered. */
  lemma AdmittedUnconditionally(err: Error, restriction: string)
    requires restriction == "" || err.OtherError?
    ensures Admits(err, restriction)
  {
  }

  /**
   * Under a restriction, a `packages.Error` is printed exactly when the part
   * of its position before the first ':' equals the restriction.
   */
  lemma PackageErrorAdmittedIff(pos: string, msg: string, restriction: string)
    requires restriction != ""
    ensures Admits(PackageError(pos, msg), restriction) <==> pos[..IndexOf(pos, ':')] == restriction
  {
    SplitHead(pos, ':');
  }

  /** Under a restriction, a `packages.Error` without a position is always dropped. */
  lemma UnpositionedPackageErrorDropped(msg: string, restriction: string)
    requires restriction != ""
    ensures !Admits(PackageError("", msg), restriction)
  {
  }

  /**
   * Only the text before the first ':' is compared, so a restriction that
   * itself contains ':' (a Windows path such as "C:\w\a.go", or
   * "/tmp/a:b/x.go") matches no `packages.Error` at all.
   */
  lemma RestrictionWithColonMatchesNothing(pos: string, msg: string, restriction: string)
    requires ':' in restriction
    ensures !Admits(PackageError(pos, msg), restriction)
  {
    var parts := Split(pos, ':');
    assert ':' !in parts[0];
  }

  /**
   * Scoping to one file: an error positioned at "file:line:col" is printed
   * under the restriction `restriction` exactly when `file` is that restriction.
   */
  lemma ScopedToRestrictedFile(file: string, lineCol: string, msg: string, restriction: string)
    requires ':' !in file && restriction != ""
    ensures Admits(PackageError(file + ":" + lineCol, msg), restriction) <==> file == restriction
  {
    SplitHeadOfJoined(file, ':', lineCol);
  }

  // ---------------------------------------------------------------------
  // Unit selection

  /**
   * The unit directory of a file argument: `filepath.Dir` of it, with "./"
   * put back in front when the argument started with "./".
   */
  function UnitDir(path: string, dir: string -> string): (d: string)
    ensures HasPrefix(path, "./") ==> HasPrefix(d, "./") && d[2..] == dir(path)
    ensures !HasPrefix(path, "./") ==> d == dir(path)
  {
    if HasPrefix(path, "./") then "./" + dir(path) else dir(path)
  }

  /**
   * `getPkgFiles`: exactly one argument is accepted; a directory is checked
   * whole, and a file, in package-context mode, by its directory with
   * errors restricted to the file.
   */
  function GetPkgFiles(args: seq<string>, useContext: bool, host: Host): (r: Result<Unit, Error>)
    ensures |args| != 1 ==> r == Failure(MoreThanOnePath)
    ensures r.Success? ==> |args| == 1 && host.stat(args[0]).Success?
    ensures r.Success? && host.stat(args[0]).value.isDir ==> r.value == Unit(args[0], "")
    ensures r.Success? && !host.stat(args[0]).value.isDir ==> useContext && r.value.targetFile == args[0]
  {
    if |args| == 1 then
      var path := args[0];
      match host.stat(path)
      case Failure(err) => Failure(err)
      case Success(info) =>
        if info.isDir then Success(Unit(path, ""))
        else if useContext then Success(Unit(UnitDir(path, host.dir), path))
        else Failure(MoreThanOnePath)
    else Failure(MoreThanOnePath)
  }

  /** The outcome of `getPkgFiles` for its one argument, case by case. */
  lemma SingleArgumentSelection(path: string, useContext: bool, host: Host)
    ensures host.stat(path).Failure? ==> GetPkgFiles([path], useContext, host) == Failure(host.stat(path).error)
    ensures host.stat(path).Success? && host.stat(path).value.isDir ==>
              GetPkgFiles([path], useContext, host) == Success(Unit(path, ""))
    ensures host.stat(path).Success? && !host.stat(path).value.isDir && useContext ==>
              GetPkgFiles([path], useContext, host) == Success(Unit(UnitDir(path, host.dir), path))
    ensures host.stat(path).Success? && !host.stat(path).value.isDir && !useContext ==>
              GetPkgFiles([path], useContext, host) == Failure(MoreThanOnePath)
  {
  }

  /** Whether the loader is asked for test packages as well. */
  predicate IncludeTests(autoFiles: bool, targetFile: string)
  {
    autoFiles && targetFile != "" && HasSuffix(targetFile, TestSuffix)
  }

  /** A file named "<base>_test.go" brings in tests exactly when `-a` is set. */
  lemma IncludeTestsForTestFile(autoFiles: bool, base: string)
    ensures IncludeTests(autoFiles, base + TestSuffix) == autoFiles
  {
    var t := base + TestSuffix;
    assert t[|t| - |TestSuffix|..] == TestSuffix;
  }

  /** Tests are included only for a target whose name ends in "_test.go", and only with `-a`. */
  lemma IncludeTestsOnlyForTestFiles(autoFiles: bool, targetFile: string)
    requires IncludeTests(autoFiles, targetFile)
    ensures autoFiles && |targetFile| >= |TestSuffix|
    ensures targetFile == targetFile[..|targetFile| - |TestSuffix|] + TestSuffix
  {
  }

  // ---------------------------------------------------------------------
  // Checking the unit

  /** Every error of every root, in the order the driver visits them. */
  function AllErrors(roots: seq<Root>): (errs: seq<PkgError>)
  {
    if roots == [] then [] else AllErrors(roots[..|roots| - 1]) + roots[|roots| - 1].errors
  }

  lemma AllErrorsPrefix(roots: seq<Root>, i: nat)
    requires i < |roots|
    ensures AllErrors(roots[..i + 1]) == AllErrors(roots[..i]) + roots[i].errors
  {
    assert roots[..i + 1][..i] == roots[..i];
  }

  /** The working directory: the `-w` flag, or else the process's own (whose failure panics). */
  function WorkingDir(flags: Flags, host: Host): (wd: Result<string, Error>)
  {
    if flags.workingDir == "" then host.getwd else Success(flags.workingDir)
  }

  /**
   * As written, the restriction is `filepath.Abs(targetFile)` even when there
   * is no target file, so a whole-directory check is restricted to the
   * absolute form of "", which is the working directory.
   */
  function RestrictionAsWritten(targetFile: string, abs: string -> Result<string, Error>): (r: Result<string, Error>)
  {
    abs(targetFile)
  }

  /** Corrected: only a target file restricts; a whole-directory check reports everything. */
  function Restriction(targetFile: string, abs: string -> Result<string, Error>): (r: Result<string, Error>)
    ensures targetFile == "" ==> r == Success("")
    ensures targetFile != "" ==> r == abs(targetFile)
  {
    if targetFile == "" then Success("") else abs(targetFile)
  }

  /** What `checkPkgFiles` does: whether it panics, and the errors it prints, in order. */
  datatype CheckReport = CheckReport(panicked: bool, printed: seq<Error>)

  /** `checkPkgFiles` with the restriction computed by `restriction`. */
  function CheckWith(pkgPath: string, targetFile: string, flags: Flags, host: Host,
                     restriction: Result<string, Error>): (report: CheckReport)
    ensures report.panicked <==> WorkingDir(flags, host).Failure?
    ensures report.panicked ==> report.printed == []
  {
    match WorkingDir(flags, host)
    case Failure(_) => CheckReport(true, [])
    case Success(wd) =>
      var config := LoadConfig(wd, IncludeTests(flags.autoFiles, targetFile));
      match restriction
      // `filepath.Abs` returns "" with its error, so the error is reported unrestricted.
      case Failure(err) => CheckReport(false, Admitted([err], ""))
      case Success(target) =>
        match host.load(config, pkgPath)
        case Failure(err) => CheckReport(false, Admitted([err], target))
        case Success(roots) => CheckReport(false, Admitted(AllErrors(roots), target))
  }

  /** `checkPkgFiles` as written: the target file is always made absolute. */
  function CheckPkgFilesAsWritten(pkgPath: string, targetFile: string, flags: Flags, host: Host): (report: CheckReport)
    ensures report.panicked <==> flags.workingDir == "" && host.getwd.Failure?
  {
    CheckWith(pkgPath, targetFile, flags, host, RestrictionAsWritten(targetFile, host.abs))
  }

  /** `checkPkgFiles` with the corrected restriction. */
  function CheckPkgFilesSpec(pkgPath: string, targetFile: string, flags: Flags, host: Host): (report: CheckReport)
    ensures report.panicked <==> flags.workingDir == "" && host.getwd.Failure?
  {
    CheckWith(pkgPath, targetFile, flags, host, Restriction(targetFile, host.abs))
  }

  /** Go's `filepath.Abs` against the working directory `wd`, without the path cleaning. */
  function AbsAgainst(wd: string): (abs: string -> Result<string, Error>)
  {
    p => if HasPrefix(p, "/") then Success(p) else if p == "" then Success(wd) else Success(wd + "/" + p)
  }

  /**
   * As written, checking the directory "pkg" from "/work" prints nothing
   * although the loaded package has a type error in "/work/pkg/a.go".
   */
  lemma DirectoryModeDropsErrorsAsWritten()
    ensures var err := PackageError("/work/pkg/a.go:3:7", "undefined: x");
            var host := Host(_ => Success(FileInfo(true)), p => p, Success("/work"), AbsAgainst("/work"),
                             (_, _) => Success([Root([err])]));
            AllErrors([Root([err])]) == [err] &&
            CheckPkgFilesAsWritten("pkg", "", Flags(true, true, ""), host) == CheckReport(false, [])
  {
    var err := PackageError("/work/pkg/a.go:3:7", "undefined: x");
    var roots := [Root([err])];
    assert roots[..0] == [];
    assert AllErrors(roots) == [err];
    assert "/work/pkg/a.go:3:7" == "/work/pkg/a.go" + ":" + "3:7";
    ScopedToRestrictedFile("/work/pkg/a.go", "3:7", "undefined: x", "/work");
  }

  /**
   * As written, that same directory check selects the unit, does not panic
   * and prints nothing, so `main` exits with status 0.
   */
  lemma DirectoryModeExitsZeroAsWritten()
    ensures var err := PackageError("/work/pkg/a.go:3:7", "undefined: x");
            var host := Host(_ => Success(FileInfo(true)), p => p, Success("/work"), AbsAgainst("/work"),
                             (_, _) => Success([Root([err])]));
            var check := CheckPkgFilesAsWritten("pkg", "", Flags(true, true, ""), host);
            && GetPkgFiles(["pkg"], true, host) == Success(Unit("pkg", ""))
            && !check.panicked
            && check.printed == []
  {
    DirectoryModeDropsErrorsAsWritten();
  }

  /** Corrected: a whole-directory check prints every error of every loaded package. */
  lemma DirectoryModeReportsEverything(pkgPath: string, flags: Flags, host: Host, wd: string, roots: seq<Root>)
    requires WorkingDir(flags, host) == Success(wd)
    requires host.load(LoadConfig(wd, false), pkgPath) == Success(roots)
    ensures CheckPkgFilesSpec(pkgPath, "", flags, host) == CheckReport(false, AllErrors(roots))
  {
  }

  /** The correction changes nothing when a target file is given: then the code as written is modelled exactly. */
  lemma CorrectionOnlyAffectsDirectoryMode(pkgPath: string, targetFile: string, flags: Flags, host: Host)
    requires targetFile != ""
    ensures CheckPkgFilesAsWritten(pkgPath, targetFile, flags, host) == CheckPkgFilesSpec(pkgPath, targetFile, flags, host)
  {
  }

  /**
   * In package-context mode only the target file's errors are printed:
   * every printed error is a `packages.Error` positioned in that file, and
   * every such error of the loaded packages is printed.
   */
  lemma FileModeReportsOnlyTarget(pkgPath: string, targetFile: string, flags: Flags, host: Host,
                                  wd: string, target: string, roots: seq<Root>)
    requires targetFile != "" && target != "" && ':' !in target
    requires WorkingDir(flags, host) == Success(wd) && host.abs(targetFile) == Success(target)
    requires host.load(LoadConfig(wd, IncludeTests(flags.autoFiles, targetFile)), pkgPath) == Success(roots)
    ensures var printed := CheckPkgFilesSpec(pkgPath, targetFile, flags, host).printed;
            && (forall k :: 0 <= k < |printed| ==> printed[k].PackageError? && Split(printed[k].pos, ':')[0] == target)
            && (forall e, lineCol :: e in AllErrors(roots) && e.pos == target + ":" + lineCol ==> e in printed)
  {
    var errs: seq<Error> := AllErrors(roots);
    var printed := Admitted(errs, target);
    assert CheckPkgFilesSpec(pkgPath, targetFile, flags, host).printed == printed;
    AdmittedExactly(errs, target);
    forall k | 0 <= k < |printed|
      ensures printed[k].PackageError? && Split(printed[k].pos, ':')[0] == target
    {
      assert printed[k] in errs;
    }
    forall e, lineCol | e in AllErrors(roots) && e.pos == target + ":" + lineCol
      ensures e in printed
    {
      ScopedToRestrictedFile(target, lineCol, e.msg, target);
    }
  }

  // ---------------------------------------------------------------------
  // The whole run

  /** What `main` does: its exit status and the errors it prints, in order. */
  datatype RunReport = RunReport(exitCode: nat, printed: seq<Error>)

  /**
   * `main`: a failed unit selection is reported unrestricted and exits with
   * status 2; a panic while finding the working directory exits with
   * status 2 (the Go runtime's status for an unrecovered panic); otherwise
   * the status is 2 when any error was printed and 0 when none was.
   */
  function RunSpec(args: seq<string>, flags: Flags, host: Host): (run: RunReport)
  {
    match GetPkgFiles(args, flags.usePkgContext, host)
    case Failure(err) => RunReport(2, Admitted([err], ""))
    case Success(unit) =>
      var check := CheckPkgFilesSpec(unit.pkgPath, unit.targetFile, flags, host);
      RunReport(if check.panicked || |check.printed| > 0 then 2 else 0, check.printed)
  }

  /** The exit status is 0 or 2, and 0 exactly when a unit was selected, nothing panicked and nothing was printed. */
  lemma ExitStatus(args: seq<string>, flags: Flags, host: Host)
    ensures var run := RunSpec(args, flags, host);
            && (run.exitCode == 0 || run.exitCode == 2)
            && (run.exitCode == 0 <==>
                  && GetPkgFiles(args, flags.usePkgContext, host).Success?
                  && !CheckPkgFilesSpec(GetPkgFiles(args, flags.usePkgContext, host).value.pkgPath,
                                        GetPkgFiles(args, flags.usePkgContext, host).value.targetFile, flags, host).panicked
                  && run.printed == [])
  {
  }

  /** A failed unit selection prints exactly its error and exits with status 2. */
  lemma SelectionFailureExits(args: seq<string>, flags: Flags, host: Host)
    requires GetPkgFiles(args, flags.usePkgContext, host).Failure?
    ensures RunSpec(args, flags, host) == RunReport(2, [GetPkgFiles(args, flags.usePkgContext, host).error])
  {
  }

  /** With no arguments the run fails: nothing is read from standard input. */
  lemma NoArgumentsRejected(flags: Flags, host: Host)
    ensures RunSpec([], flags, host) == RunReport(2, [MoreThanOnePath])
  {
  }

  class Process {
    /** The package-level `errorCount`. */
    var errorCount: nat
    /** The errors printed to standard error so far. */
    var stderr: seq<Error>

    ghost predicate Valid()
      reads this
    {
      errorCount == |stderr|
    }

    /** The state at program start. */
    constructor ()
      ensures Valid() && stderr == []
    {
      errorCount := 0;
      stderr := [];
    }

    /** `report`: print `err` and count it, unless the restriction filters it out. */
    method Report(err: Error, restriction: string)
      requires Valid()
      modifies this
      ensures Valid()
      ensures errorCount == old(errorCount) + (if Admits(err, restriction) then 1 else 0)
      ensures stderr == old(stderr) + Admitted([err], restriction)
    {
      if restriction != "" {
        if err.PackageError? {
          var errFileParts := Split(err.pos, ':');
          var errFilePath := errFileParts[0];
          if errFilePath != restriction {
            return;
          }
        }
      }
      stderr := stderr + [err];
      errorCount := errorCount + 1;
    }

    /** `checkPkgFiles`, with the restriction corrected for whole-directory checks. */
    method CheckPkgFiles(pkgPath: string, targetFile: string, flags: Flags, host: Host) returns (panicked: bool)
      requires Valid()
      modifies this
      ensures Valid()
      ensures var check := CheckPkgFilesSpec(pkgPath, targetFile, flags, host);
              panicked == check.panicked && stderr == old(stderr) + check.printed
    {
      var wd := flags.workingDir;
      if wd == "" {
        var got := host.getwd;
        if got.Failure? {
          return true;
        }
        wd := got.value;
      }
      var includeTests := IncludeTests(flags.autoFiles, targetFile);
      var config := LoadConfig(wd, includeTests);

      var target := "";
      if targetFile != "" {
        var absTarget := host.abs(targetFile);
        if absTarget.Failure? {
          Report(absTarget.error, "");
          return false;
        }
        target := absTarget.value;
      }

      var loaded := host.load(config, pkgPath);
      if loaded.Failure? {
        Report(loaded.error, target);
        return false;
      }
      ReportRoots(loaded.value, target);
      return false;
    }

    /** The loop of `checkPkgFiles`: every error of every root, in order, through `report`. */
    method ReportRoots(roots: seq<Root>, target: string)
      requires Valid()
      modifies this
      ensures Valid()
      ensures stderr == old(stderr) + Admitted(AllErrors(roots), target)
    {
      var i := 0;
      while i < |roots|
        invariant 0 <= i <= |roots|
        invariant Valid()
        invariant stderr == old(stderr) + Admitted(AllErrors(roots[..i]), target)
      {
        ReportErrors(roots[i].errors, target);
        AllErrorsPrefix(roots, i);
        AdmittedAppend(AllErrors(roots[..i]), roots[i].errors, target);
        i := i + 1;
      }
      assert roots[..i] == roots;
    }

    /** The inner loop: the errors of one root, in order, through `report`. */
    method ReportErrors(errs: seq<Error>, target: string)
      requires Valid()
      modifies this
      ensures Valid()
      ensures stderr == old(stderr) + Admitted(errs, target)
    {
      var j := 0;
      while j < |errs|
        invariant 0 <= j <= |errs|
        invariant Valid()
        invariant stderr == old(stderr) + Admitted(errs[..j], target)
      {
        Report(errs[j], target);
        assert errs[..j + 1] == errs[..j] + [errs[j]];
        AdmittedAppend(errs[..j], [errs[j]], target);
        j := j + 1;
      }
      assert errs[..j] == errs;
    }

    /** `main`, run once on a fresh process. */
    method Run(args: seq<string>, flags: Flags, host: Host) returns (exitCode: nat)
      requires Valid() && stderr == []
      modifies this
      ensures Valid()
      ensures RunReport(exitCode, stderr) == RunSpec(args, flags, host)
    {
      var unit := GetPkgFiles(args, flags.usePkgContext, host);
      if unit.Failure? {
        Report(unit.error, "");
        return 2;
      }
      var panicked := CheckPkgFiles(unit.value.pkgPath, unit.value.targetFile, flags, host);
      if panicked {
        return 2;
      }
      if errorCount > 0 {
        return 2;
      }
      return 0;
    }
  }
}
