# gotype-ish: import resolver and diagnostic scoping, in Dafny

This project models the two pieces of logic that the gotype-ish front end
adds around Go's own loaders and type checker.

- **The import resolver** (`importer.go`). `Importer` caches packages by
  import path. On a miss it asks the compiled-package importer first. If
  that fails, it discovers the package's sources, parses the Go and cgo
  files, type-checks them and caches whatever the checker returns. The model
  is the class `ImportResolver.Importer`. Its `packages` map is a field that
  `ImportFrom` updates in place. The method is proved equal to the pure
  function `ImportFromSpec`, and the lemmas state the resolver's properties
  about that function.
- **The driver** (`gotype2.go`). `getPkgFiles` picks the unit to check.
  `report` drops a `packages.Error` when the text of its position before
  the first `:` differs from the target file, and prints and counts every
  other error. `checkPkgFiles` feeds every error of the loaded packages through
  `report`, and `main` picks the exit status. `errorCount` and the
  standard-error stream are fields of `Gotype.Process`. The loop is a method
  proved against the pure `CheckPkgFilesSpec`, and the whole run is proved
  against `RunSpec`.

Every collaborator is a total function value supplied by the caller, and the
model takes its result as given. In `ImportResolver` these are
`MainImporter`, `Config` and `Toolchain`. In `Gotype` they are grouped in
`Host`: `os.Stat`, `filepath.Dir`, `os.Getwd`, `filepath.Abs` and
`packages.Load`. Go's `strings.Split`, `HasPrefix` and `HasSuffix` are
modelled in `GoStrings`. `Split` is proved to round-trip with `Join`.

Some behaviours of the code are worth stating plainly:

- The program's doc comment (gotype2.go:23-24) says that without paths it
  reads standard input. The code does not: `getPkgFiles` rejects every
  argument count other than one (gotype2.go:161, 182) with "cannot specify
  more than one path" (`Gotype.NoArgumentsRejected`).
- Under a restriction, a `packages.Error` with an empty position is dropped
  (`Gotype.UnpositionedPackageErrorDropped`).
- The position's file is compared with the restriction as raw text. The
  only normalisation is `filepath.Abs` on the target file. Because only the
  text before the first `:` is compared, a target path that contains `:`
  matches no `packages.Error` (`Gotype.RestrictionWithColonMatchesNothing`).
- `config.Check`'s error is discarded. The package it returns is cached and
  returned as a success (`ImportResolver.CheckErrorDiscarded`).

## Model

| member | source | states |
|---|---|---|
| ImportResolver.ImportFromSpec | importer.go:24-46 | A hit returns the cached package and leaves the cache as it is. A failure leaves the cache as it is, and then `path` was not cached. A success caches its package under `path`. The key set grows by `path` at most, and existing entries keep their values. |
| ImportResolver.SourceFiles | importer.go:37 | The parser gets the Go files first and then the cgo files, in their original order. The count is the sum of both lists. |
| ImportResolver.Importer.constructor | importer.go:11-16 | The struct literal: the importer holds the given main importer, working directory, cache and config. |
| ImportResolver.Importer.Import | importer.go:18-22 | Returns exactly what the main importer's `Import` returns. It has no modifies clause, so it never writes the cache. |
| ImportResolver.Importer.ImportFrom | importer.go:24-46 | The result and the new `packages` map are what `ImportFromSpec` gives for the old map. No other field changes. |
| ImportResolver.CacheHitConsultsNothing | importer.go:25-27 | On a hit, the outcome is the same whatever the collaborators are, and it is the cached package. |
| ImportResolver.FastPathStored | importer.go:28-45 | On a miss, if the compiled importer succeeds, its package is returned and cached under `path`. |
| ImportResolver.DiscoveryFailurePropagates | importer.go:30-34 | If the compiled importer and source discovery both fail, discovery's error is returned and the cache is unchanged. |
| ImportResolver.ParseFailurePropagates | importer.go:37-41 | If parsing the discovered Go and cgo files fails, the parser's error is returned and the cache is unchanged. |
| ImportResolver.CheckErrorDiscarded | importer.go:42-45 | On the source path, `Check`'s package is cached and returned as a success even if `Check` reported an error. |
| ImportResolver.SecondImportIsCacheHit | importer.go:25-45 | After a successful import of `path`, importing it again is a cache hit. This holds from any directory, in any mode and with any collaborators. It returns the same package and leaves the cache unchanged. |
| ImportResolver.FailureRetried | importer.go:29-45 | A failed import caches nothing. The next import of the same path consults the collaborators again and can succeed. |
| GoStrings.IndexOf | gotype2.go:149-150 | The index of the first `:`, or the length when there is none. No earlier character is a `:`. |
| GoStrings.Split | gotype2.go:149 | There is always at least one piece, even for "". No piece contains the separator. Joining the pieces with the separator gives back the input. |
| GoStrings.SplitHead | gotype2.go:149-150 | The first piece is the text before the first `:`, or all of it if there is none. |
| GoStrings.SplitHeadOfJoined | gotype2.go:149-150 | For "file:rest" where file has no `:`, the first piece is file. |
| GoStrings.IndexOfJoined | gotype2.go:149-150 | For "file:rest" where file has no `:`, the first `:` is at index `\|file\|`. |
| Gotype.Admits | gotype2.go:147-153 | No contract. `report`'s decision for one error; its meaning is stated by `PackageErrorAdmittedIff`, `AdmittedUnconditionally` and `ScopedToRestrictedFile`. |
| Gotype.Admitted | gotype2.go:146-158 | The errors `report` prints, in order. With an empty restriction that is every error. |
| Gotype.AdmittedExactly | gotype2.go:146-158 | Every printed error was reported and passes the filter. Every reported error that passes the filter is printed. |
| Gotype.AdmittedAppend | gotype2.go:215-219 | Filtering a concatenation gives the concatenation of the filtered parts, so reporting errors one at a time prints the same as filtering the whole list. |
| Gotype.AdmittedUnconditionally | gotype2.go:146-157 | An empty restriction admits every error, and so does an error that is not a `packages.Error`. |
| Gotype.PackageErrorAdmittedIff | gotype2.go:147-153 | Under a restriction, a `packages.Error` is printed if and only if the text of its position before the first `:` equals the restriction. |
| Gotype.UnpositionedPackageErrorDropped | gotype2.go:149-152 | Under a restriction, a `packages.Error` whose position is empty is never printed. |
| Gotype.RestrictionWithColonMatchesNothing | gotype2.go:148-153 | A restriction containing `:`, such as a Windows path, admits no `packages.Error`, whatever its position. |
| Gotype.ScopedToRestrictedFile | gotype2.go:148-153 | An error positioned at "file:line:col" is printed under a restriction if and only if file is the restriction. |
| Gotype.UnitDir | gotype2.go:173-177 | The unit directory is `filepath.Dir` of the path. If the path starts with "./", "./" is put back in front of it. |
| Gotype.GetPkgFiles | gotype2.go:160-183 | Any argument count other than one, zero included, gives "cannot specify more than one path". A success means the one argument was stat'ed. A directory gives `(path, "")`. A file can succeed only in package-context mode, with the file as the target. |
| Gotype.SingleArgumentSelection | gotype2.go:161-182 | For one argument: a stat error is returned as is, and a directory is the unit with no target. A file with `-pkg-context` gives its unit directory and the file. A file without it gives the error. |
| Gotype.IncludeTests | gotype2.go:195 | No contract. Whether test packages are loaded; its meaning is stated by `IncludeTestsForTestFile` and `IncludeTestsOnlyForTestFiles`. |
| Gotype.IncludeTestsForTestFile | gotype2.go:195 | A target named "base_test.go" brings in tests exactly when `-a` is set. |
| Gotype.IncludeTestsOnlyForTestFiles | gotype2.go:195 | Tests are requested only when `-a` is set and the target ends in "_test.go". |
| Gotype.AllErrors | gotype2.go:215-216 | No contract. The errors of all roots, root by root and in each root's order; that order is stated by `AllErrorsPrefix`. |
| Gotype.AllErrorsPrefix | gotype2.go:215-216 | The errors visited through root i are those visited before root i followed by root i's own errors, in order. |
| Gotype.WorkingDir | gotype2.go:186-193 | No contract. The `-w` flag when set, otherwise `os.Getwd`; its effect on panicking is stated by `CheckPkgFilesSpec` and `CheckPkgFilesAsWritten`. |
| Gotype.CheckWith | gotype2.go:185-220 | `checkPkgFiles` for a given restriction: it panics exactly when the working directory cannot be found, and then prints nothing. |
| Gotype.CheckPkgFilesAsWritten | gotype2.go:185-220 | `checkPkgFiles` as written, restricted to `filepath.Abs` of the target even when there is none. It panics exactly when `-w` is unset and `os.Getwd` fails. |
| Gotype.CheckPkgFilesSpec | gotype2.go:185-220 | Corrected `checkPkgFiles`. It panics exactly when `-w` is unset and `os.Getwd` fails. |
| Gotype.Restriction | gotype2.go:203-208 | Corrected restriction: none for a whole-directory check, `filepath.Abs` of the target file otherwise. |
| Gotype.DirectoryModeDropsErrorsAsWritten | gotype2.go:203-219 | As written: checking directory "pkg" from "/work" prints nothing, although the loaded package has a type error at "/work/pkg/a.go:3:7". |
| Gotype.CorrectionOnlyAffectsDirectoryMode | gotype2.go:203-219 | With a target file given, the corrected check and the check as written print the same errors and panic alike. |
| Gotype.DirectoryModeExitsZeroAsWritten | gotype2.go:203-219 | As written: for that same directory check the unit is selected, nothing panics and nothing is printed, so `main` exits 0. |
| Gotype.DirectoryModeReportsEverything | gotype2.go:185-219 | Corrected: a whole-directory check, with the working directory known and the load successful, prints every error of every root in order and does not panic. |
| Gotype.FileModeReportsOnlyTarget | gotype2.go:185-219 | With a target file whose absolute path has no `:`, every printed error is a `packages.Error` whose position's text before the first `:` is that path. Every loaded error positioned at "path:line:col" is printed. |
| Gotype.RunSpec | gotype2.go:222-236 | No contract. `main` with the corrected check; its exit status is stated by `ExitStatus`, `SelectionFailureExits` and `NoArgumentsRejected`. |
| Gotype.ExitStatus | gotype2.go:226-235 | The exit status is 0 or 2. It is 0 exactly when a unit was selected, nothing panicked and no error was printed. |
| Gotype.SelectionFailureExits | gotype2.go:226-230 | A failed unit selection prints exactly its error, because the restriction is empty, and exits with status 2. |
| Gotype.NoArgumentsRejected | gotype2.go:161-182 | With no arguments the run prints "cannot specify more than one path" and exits with status 2. Standard input is never read. |
| Gotype.Process.constructor | gotype2.go:109-111 | At program start the counter is 0 and nothing has been printed. |
| Gotype.Process.Report | gotype2.go:146-158 | An admitted error is appended to standard error and the counter rises by exactly 1. A dropped error changes nothing. |
| Gotype.Process.CheckPkgFiles | gotype2.go:185-220 | Corrected `checkPkgFiles`: a whole-directory check is unrestricted. Panics exactly when `CheckPkgFilesSpec` says so. Appends exactly its printed errors to standard error. |
| Gotype.Process.ReportRoots | gotype2.go:215-219 | The outer loop appends the admitted errors of all roots, root by root, in order. |
| Gotype.Process.ReportErrors | gotype2.go:216-218 | The inner loop appends the admitted errors of one root, in order. |
| Gotype.Process.Run | gotype2.go:222-236 | Uses the corrected `checkPkgFiles`. From a fresh process, the exit status and everything printed are what `RunSpec` gives. |

## Findings

| source | as written | input that shows it | evidently intended | confidence | as-written member | corrected member |
|---|---|---|---|---|---|---|
| gotype2.go:203-212 | The target file is always made absolute and used as the restriction. In a whole-directory check the target is "", whose absolute form is the working directory, so every positioned `packages.Error` is dropped and the run exits 0. | directory argument "pkg", working directory "/work", a type error positioned at "/work/pkg/a.go:3:7" | restrict only when a target file was given, so a directory check reports every error | medium, not executed | Gotype.DirectoryModeDropsErrorsAsWritten | Gotype.DirectoryModeReportsEverything |

The rest of the model (`CheckPkgFilesSpec`, `Process.CheckPkgFiles`, `RunSpec`, `Process.Run`) uses the corrected `Restriction`. The code as written is kept as `CheckPkgFilesAsWritten`. `DirectoryModeExitsZeroAsWritten` shows that, as written, the unit is selected, nothing panics and nothing is printed, so `main` exits 0. The counterexample uses `AbsAgainst`, which follows `filepath.Abs` for relative paths but leaves out path cleaning.

## Left out

- Nested imports: `config.Check` may call back into the same importer, which would add more cache entries during a source-path import. The check is modelled as an opaque function with no access to the cache. So "only `path` is written" holds only for the resolver's own write, and import cycles are not modelled.
- ImportResolver.Importer.ImportFrom: the `packages` map is a value field, not a Go map reference. Three things are not captured. A struct literal that leaves `packages` nil makes the write at importer.go:44 panic after a successful import. A map the caller passed in is shared with the importer and sees its writes. A nil `mainImporter` or `config` panics when called.
- Gotype.FileModeReportsOnlyTarget: its second clause requires a target path without `:`. For a target with `:`, the code prints none of the target's `packages.Error`s (`Gotype.RestrictionWithColonMatchesNothing`). The model keeps this comparison as the code has it, because the code does not show which comparison was intended.
- Nil packages are not modelled. A nil package with a nil error from the compiled importer is not represented, and a successful import always carries a package value.
- The symbol tables of packages, parsed syntax trees, `fset`, the `mode` passed to `build.Default.Import` and the `info` passed to `Check` are opaque or fixed. They are external library state.
- `path.Join`, `filepath.Dir` and `filepath.Abs` are uninterpreted functions supplied by the caller. Path cleaning belongs to the library.
- `os.Stat`, `os.Getwd` and `packages.Load` are abstract outcomes. I/O is outside the model.
- Flag parsing, `usage` and the usage text are left out. The flags arrive already parsed in `Flags`.
- The format of printed lines and the message a panic prints are left out. The model records the error values written to standard error, not their text.
- The `os.Exit` side effect is left out. The exit status is returned as a value. An unrecovered panic while finding the working directory is given status 2, which is the Go runtime's status for it.
- Standard-input mode, `-t`, `-x`, `-c`, `-e`, `-v`, `-ast` and `-trace` are described in the program's doc comment but not implemented by this code, so they are not modelled.
- Gotype.Process.Report: `errorCount` is a natural number, so overflow of Go's `int` counter is not modelled. It cannot be reached with fewer than 2^63 errors.
