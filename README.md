# QTL-seq parameter checks in Dafny

QTL-seq compares the SNP-index of two pooled bulks against a parent to find
genomic regions linked to a trait. Before its pipeline starts, the `qtlseq`
command runs two checks on the parsed command line
(`qtlseq/params.py`, class `Params`):

- **`check_max_threads`** clamps the requested thread count `args.threads`
  to the machine's CPU count. A request of at least the CPU count becomes the
  CPU count. So does a request below 1. Any other request is kept. The field
  is updated in place.
- **`check_args`** validates the input-file arguments and stops the program
  at the first problem it finds. The output directory must not exist yet, and
  the filial generation must be at least 2. Each argument of `-p` (parent),
  `-b1` (bulk1) and `-b2` (bulk2) is then checked, in that order:
  - an argument with no comma must have the extension `.bam`;
  - an argument with one comma is a FASTQ pair, and neither half may have the
    extension `.bam`;
  - an argument with two or more commas is refused.

  `--trim` is only allowed when at least one FASTQ pair was given. On success
  the check returns the number of FASTQ pairs (`N_fastq`).

The project has three modules:

- `Strings` (`strings.dfy`) models the single-character string operations the
  checks use: `str.count` is `Count` and `str.split` is `Split`. `Join` is
  the inverse of `Split`, and the two round trips are proved.
- `PosixPath` (`posixpath.dfy`) models `os.path.splitext` with `/` as the
  path separator, as `SplitExt` and `Extension`. The extension starts at the
  last `.` of the final path component. It is empty unless some character of
  that component before the dot is not a dot: `.bam` and `..bam` have no
  extension. The comparison with `.bam` is case-sensitive. The extension is
  proved equal to `.bam` exactly when the path satisfies an independent
  description, `IsBamPath`.
- `Params` (`params.dfy`) holds the rest:
  - `Args` is the options object. It is a class, because `check_max_threads`
    assigns its `threads` field.
  - `ClampedThreads` and `CheckMaxThreads` do the clamping.
  - `CheckEntry`, `CheckGroup` and `CheckArgs` are the loops of `check_args`.
    One `CheckGroup` loop serves all three options, and it carries the shared
    running count `N_fastq` from one option to the next.
  - `Validate` is the specification of `check_args`. It is a pure function,
    and the lemmas about it state what the check accepts and rejects.

Each way `check_args` stops the program is a variant of `ArgError`:

| `ArgError` variant | when it is reported |
|---|---|
| `OutputDirExists` | the output directory already exists |
| `FilialTooSmall` | the filial generation is below 2 |
| `NotBam` | an argument without a comma does not have the `.bam` extension |
| `BamInPair` | one half of a comma-separated pair has the `.bam` extension |
| `TooManyCommas` | an argument has two or more commas |
| `TrimWithoutFastq` | `--trim` was given without any FASTQ pair |

The program writes the message for each of these to stderr. It then calls
`sys.exit()` without an argument, so the process exits with status 0 even on
these errors. The model keeps only which error occurred and in what order the
tests run. The output-directory test comes first in the code, before the
filial test, and the model follows that order.

The machine's CPU count (`multiprocessing.cpu_count()`) is the parameter
`maxCpu`. Whether the output directory exists (`os.path.isdir(args.out)`) is
the parameter `outIsDir`.

## Model

| member | source | states |
|---|---|---|
| `Params.ClampedThreads` | qtlseq/params.py:294-300 | A request of at least `maxCpu`, or below 1, becomes `maxCpu`. A request is kept exactly when it lies in `[1, maxCpu)` or equals `maxCpu`. When `maxCpu >= 1` the result lies in `[1, maxCpu]`. |
| `Params.ClampedThreadsIdempotent` | qtlseq/params.py:294-300 | For a fixed CPU count, clamping twice gives the same result as clamping once. |
| `Params.CheckMaxThreads` | qtlseq/params.py:289-301 | Sets `args.threads` to the clamped value of its old value, which lies in `[1, maxCpu]` when `maxCpu >= 1`. Every other option is unchanged. Returns the same object. |
| `Strings.Count` | qtlseq/params.py:317 | The number of commas is at most the length of the string. It is zero exactly when the string has no comma. |
| `Strings.Split` | qtlseq/params.py:328 | Splitting on a character yields one more piece than the string has occurrences of that character, so a one-comma argument yields two pieces. |
| `Strings.SplitPiecesWithout` | qtlseq/params.py:328 | No piece of a split contains the separator. |
| `Strings.CountJoin` | qtlseq/params.py:328 | Joining pieces without the separator puts exactly one separator between neighbours, so two pieces give a string with one comma. |
| `Strings.JoinSplit` | qtlseq/params.py:328 | Joining the pieces of a split with the separator gives back the original string. |
| `Strings.SplitJoin` | qtlseq/params.py:328 | Take one or more pieces that do not contain the separator. Joining them and then splitting gives back the same pieces. |
| `PosixPath.LastIndex` | qtlseq/params.py:319 | The index used by `splitext` is -1 or a position holding the character. |
| `PosixPath.LastIndexIsLast` | qtlseq/params.py:319 | No occurrence of the character follows that index. |
| `PosixPath.NonDotBetweenIff` | qtlseq/params.py:319 | The scan that skips leading dots succeeds exactly when the range holds a non-dot character. |
| `PosixPath.SplitExt` | qtlseq/params.py:319 | Root followed by extension is the whole path. A non-empty extension is one dot followed by characters that are neither dots nor `/`. |
| `PosixPath.Extension` | qtlseq/params.py:319 | The extension is a suffix of the path, and it is empty or starts with a dot. |
| `PosixPath.ExtensionNonEmptyIff` | qtlseq/params.py:319 | The extension is non-empty exactly when the final path component has a dot preceded by a non-dot character. |
| `PosixPath.ExtensionIsBamIff` | qtlseq/params.py:319-320 | The extension is `.bam` exactly when the path ends in `.bam` and the final component has a non-dot character before that suffix. |
| `Params.AnyBam` | qtlseq/params.py:329-331 | The loop over the halves of a pair finds a `.bam` extension exactly when some half has one. |
| `Params.ClassifyEntry` | qtlseq/params.py:316-343 | An accepted argument is a FASTQ pair exactly when it has one comma. A rejected argument reports `NotBam` (no comma), `BamInPair` (one comma) or `TooManyCommas` (two or more), tagged with its option. |
| `Params.ClassifyEntryOkIff` | qtlseq/params.py:317-343 | An argument is accepted exactly when it has no comma and extension `.bam`, or exactly one comma and neither half has extension `.bam`. |
| `Params.CheckEntry` | qtlseq/params.py:317-343 | The body of the argument loop, including the inner loop over the two halves, returns the verdict `ClassifyEntry` gives. |
| `Params.NumPairs` | qtlseq/params.py:338 | The number of FASTQ-pair arguments is at most the number of arguments. |
| `Params.ValidateGroup` | qtlseq/params.py:316-343 | An accepted option yields its number of one-comma arguments. A rejected option yields an argument error tagged with that option. |
| `Params.AddGroup` | qtlseq/params.py:314-401 | An earlier error is kept. Otherwise the result is accepted exactly when the option is, the option's pairs are added to the running count, and an error is tagged with that option. |
| `Params.ValidateGroupPrefixErr` | qtlseq/params.py:316-343 | Once some prefix of an option's arguments is rejected, the whole option is rejected with the same error. |
| `Params.ValidateGroupStepOk` | qtlseq/params.py:316-338 | An accepted prefix followed by an accepted argument is accepted, with one more pair if that argument is a pair. |
| `Params.ValidateGroupStepErr` | qtlseq/params.py:316-343 | An accepted prefix followed by a rejected argument rejects the option with that argument's error. |
| `Params.ValidateGroupOkIff` | qtlseq/params.py:316-343 | An option is accepted exactly when each of its arguments is accepted. |
| `Params.AllEntriesValid` | qtlseq/params.py:316-343 | An option is accepted exactly when each of its arguments is acceptable in the sense of `ClassifyEntryOkIff`. |
| `Params.ValidateGroupFirstError` | qtlseq/params.py:316-343 | A rejected option reports the error of some argument, and every argument before that one is acceptable. |
| `Params.Validate` | qtlseq/params.py:303-312 | An existing output directory is rejected first. Otherwise a filial generation below 2 is rejected. |
| `Params.ValidateCount` | qtlseq/params.py:314-408 | On success the result is the number of one-comma arguments over parent, bulk1 and bulk2, so it is at most the total number of arguments. `TrimWithoutFastq` only arises with `--trim` and no pair. |
| `Params.ValidateOkIff` | qtlseq/params.py:303-408 | The call is accepted exactly when all of these hold: the output directory is new, the filial generation is at least 2, every argument of the three options is acceptable, and `--trim` does not come without a pair. |
| `Params.InvalidEntryRejects` | qtlseq/params.py:316-401 | An unacceptable argument in any of the three options rejects the whole call. |
| `Params.BareEntryMustBeBam` | qtlseq/params.py:318-326 | An argument without a comma whose path is not a BAM path (`IsBamPath`) rejects the call. |
| `Params.PairMustNotHoldBam` | qtlseq/params.py:327-337 | An argument `a,b` where `a` or `b` is a BAM path rejects the call. |
| `Params.TooManyCommasRejects` | qtlseq/params.py:339-343 | An argument with two or more commas rejects the call. |
| `Params.TrimNeedsFastq` | qtlseq/params.py:403-406 | With every other test passing and no FASTQ pair, `--trim` gives `TrimWithoutFastq`. |
| `Params.TrimIrrelevantWithFastq` | qtlseq/params.py:403-408 | With at least one FASTQ pair, the verdict is the same with and without `--trim`. |
| `Params.CheckGroup` | qtlseq/params.py:316-343 | One argument loop returns the verdict of the specification for that option, with the option's pairs added to the running count it was given. The loop returns at the first rejected argument. |
| `Params.CheckArgs` | qtlseq/params.py:303-408 | The whole check returns exactly `Validate` of the output-directory flag and the options' current values. |

## Left out

- The statistics engine is not part of this model. That covers SNP-index computation, depth and strand-bias filtering, sliding windows and the simulated thresholds; none of its source is available here, and the simulation is random and uses floating point.
- `Params.__init__`, `set_options` and the reading of `sys.argv` (qtlseq/params.py:14-28) are left out. They are process input only.
- `qtlseq_options` and `qtlplot_options` (qtlseq/params.py:30-280) are left out. They only declare options to `argparse`, which is not part of this model. `Args` holds only the options the two checks read or write.
- `read_config` (qtlseq/params.py:282-287) is left out. It reads a configuration file.
- `multiprocessing.cpu_count()` is replaced by the parameter `maxCpu`. The time-stamped message and the stderr warning of `check_max_threads` are not modelled.
- `os.path.isdir(args.out)` is replaced by the parameter `outIsDir`. The field `out` is carried but not inspected.
- The stderr messages and `sys.exit()` calls of `check_args` are not modelled. Each becomes a variant of `ArgError`, which records only the option and the argument.
- `os.path.splitext` is modelled for POSIX paths only, with `/` as the sole separator. The Windows variant, which also treats `\` as a separator, is not modelled.
- `Strings.Count` and `Strings.Split` model `str.count` and `str.split` for a single-character separator only, which is the only form the checks use.
