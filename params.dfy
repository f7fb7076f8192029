/** The parameter checks of the `qtlseq` command: clamping the requested
    number of threads to the machine's CPU count, and validating the parent,
    bulk1 and bulk2 input-file arguments before the pipeline starts.
    The CPU count and whether the output directory already exists are
    parameters here; each way the checks stop the program is an `ArgError`. */
module Params {
  import opened Strings
  import opened PosixPath

  /** The parsed command-line options that the two checks read or write. */
  class Args {
    var threads: int
    var filial: int
    var parent: seq<string>
    var bulk1: seq<string>
    var bulk2: seq<string>
    var trim: bool
    var out: string

    constructor (threads: int, filial: int, parent: seq<string>, bulk1: seq<string>,
                 bulk2: seq<string>, trim: bool, out: string)
      ensures this.threads == threads && this.filial == filial
      ensures this.parent == parent && this.bulk1 == bulk1 && this.bulk2 == bulk2
      ensures this.trim == trim && this.out == out
    {
      this.threads := threads;
      this.filial := filial;
      this.parent := parent;
      this.bulk1 := bulk1;
      this.bulk2 := bulk2;
      this.trim := trim;
      this.out := out;
    }
  }

  // ---------------------------------------------------------------------------
  // Thread count

  /** The thread count the program runs with, given the requested count and
      the machine's CPU count: a request of at least the CPU count, or below
      one, becomes the CPU count; any other request is kept. */
  function ClampedThreads(requested: int, maxCpu: int): (t: int)
    ensures maxCpu <= requested ==> t == maxCpu
    ensures requested < 1 ==> t == maxCpu
    ensures t == requested <==> 1 <= requested < maxCpu || requested == maxCpu
    ensures 1 <= maxCpu ==> 1 <= t <= maxCpu
  {
    if maxCpu <= requested then maxCpu
    else if requested < 1 then maxCpu
    else requested
  }

  /** Clamping an already clamped count changes nothing. */
  lemma ClampedThreadsIdempotent(requested: int, maxCpu: int)
    ensures ClampedThreads(ClampedThreads(requested, maxCpu), maxCpu) == ClampedThreads(requested, maxCpu)
  {
  }

  /** Replaces `args.threads` by its clamped value and returns the same
      object; no other option changes. */
  method CheckMaxThreads(args: Args, maxCpu: int) returns (r: Args)
    modifies args`threads
    ensures r == args
    ensures args.threads == ClampedThreads(old(args.threads), maxCpu)
    ensures 1 <= maxCpu ==> 1 <= args.threads <= maxCpu
    ensures unchanged(args`filial, args`parent, args`bulk1, args`bulk2, args`trim, args`out)
  {
    if maxCpu <= args.threads {
      args.threads := maxCpu;
    } else if args.threads < 1 {
      args.threads := maxCpu;
    }
    r := args;
  }

  // ---------------------------------------------------------------------------
  // Input-file arguments

  /** Which option an input-file argument came from (`-p`, `-b1`, `-b2`). */
  datatype Group = Parent | Bulk1 | Bulk2

  /** What an accepted input-file argument denotes. */
  datatype InputKind = Bam | FastqPair

  /** The reasons `check_args` stops the program. */
  datatype ArgError =
    | OutputDirExists
    | FilialTooSmall
    | NotBam(group: Group, name: string)         // no comma, extension is not `.bam`
    | BamInPair(group: Group, name: string)      // one comma, a half has extension `.bam`
    | TooManyCommas(group: Group, name: string)  // two or more commas
    | TrimWithoutFastq

  datatype Result<T> = Ok(value: T) | Err(error: ArgError)

  /** An argument is acceptable when it has no comma and a `.bam` extension,
      or exactly one comma and neither half has a `.bam` extension. */
  ghost predicate ValidEntry(name: string)
  {
    (Count(name, ',') == 0 && Extension(name) == ".bam") ||
    (Count(name, ',') == 1 && Extension(Split(name, ',')[0]) != ".bam" &&
                              Extension(Split(name, ',')[1]) != ".bam")
  }

  /** Whether some path of `paths` has extension `.bam`. */
  function AnyBam(paths: seq<string>): (b: bool)
    ensures b <==> exists k :: 0 <= k < |paths| && Extension(paths[k]) == ".bam"
  {
    if |paths| == 0 then false
    else
      assert forall k :: 1 <= k < |paths| ==> paths[1..][k - 1] == paths[k];
      Extension(paths[0]) == ".bam" || AnyBam(paths[1..])
  }

  /** The verdict on one input-file argument. */
  function ClassifyEntry(g: Group, name: string): (r: Result<InputKind>)
    ensures r.Ok? ==> (r.value == FastqPair <==> Count(name, ',') == 1)
    ensures r.Err? ==> r.error == (if Count(name, ',') == 0 then NotBam(g, name)
                                   else if Count(name, ',') == 1 then BamInPair(g, name)
                                   else TooManyCommas(g, name))
  {
    var nComma := Count(name, ',');
    if nComma == 0 then
      if Extension(name) != ".bam" then Err(NotBam(g, name)) else Ok(Bam)
    else if nComma == 1 then
      var fastqs := Split(name, ',');
      if AnyBam(fastqs) then Err(BamInPair(g, name))
      else Ok(FastqPair)
    else
      Err(TooManyCommas(g, name))
  }

  /** An argument is accepted exactly when it is acceptable. */
  lemma ClassifyEntryOkIff(g: Group, name: string)
    ensures ClassifyEntry(g, name).Ok? <==> ValidEntry(name)
  {
    if Count(name, ',') == 1 {
      var fastqs := Split(name, ',');
      assert fastqs[1..][0] == fastqs[1];
      assert !AnyBam(fastqs[1..][1..]);
      assert ClassifyEntry(g, name).Ok? <==> !AnyBam(fastqs);
    }
  }

  /** Number of arguments with exactly one comma (FASTQ pairs). */
  function NumPairs(names: seq<string>): (n: nat)
    ensures n <= |names|
  {
    if |names| == 0 then 0
    else NumPairs(names[..|names| - 1]) + (if Count(names[|names| - 1], ',') == 1 then 1 else 0)
  }

  /** The verdict on the arguments of one option, taken in order: the error of
      the first unacceptable one, or else the number of FASTQ pairs. */
  function ValidateGroup(g: Group, names: seq<string>): (r: Result<nat>)
    ensures r.Ok? ==> r.value == NumPairs(names)
    ensures r.Err? ==> (r.error.NotBam? || r.error.BamInPair? || r.error.TooManyCommas?) && r.error.group == g
  {
    if |names| == 0 then Ok(0)
    else
      match ValidateGroup(g, names[..|names| - 1])
      case Err(e) => Err(e)
      case Ok(n) =>
        match ClassifyEntry(g, names[|names| - 1])
        case Err(e) => Err(e)
        case Ok(kind) => Ok(n + if kind == FastqPair then 1 else 0)
  }

  /** Continues a running FASTQ-pair count with the arguments of option `g`:
      an earlier error stands, an error among these arguments comes next, and
      otherwise their pairs are added to the count. */
  function AddGroup(acc: Result<nat>, g: Group, names: seq<string>): (r: Result<nat>)
    ensures acc.Err? ==> r == acc
    ensures acc.Ok? ==> (r.Ok? <==> ValidateGroup(g, names).Ok?)
    ensures r.Ok? ==> r.value == acc.value + NumPairs(names)
    ensures acc.Ok? && r.Err? ==> (r.error.NotBam? || r.error.BamInPair? || r.error.TooManyCommas?) && r.error.group == g
  {
    match acc
    case Err(e) => Err(e)
    case Ok(n) =>
      match ValidateGroup(g, names)
      case Err(e) => Err(e)
      case Ok(m) => Ok(n + m)
  }

  /** The verdict of `check_args`: the output directory must not exist, the
      filial generation must be at least 2, every argument of parent, bulk1 and
      bulk2 (in that order) must be acceptable, and `--trim` needs a FASTQ
      pair; on success, the number of FASTQ pairs. */
  function Validate(outIsDir: bool, filial: int, parent: seq<string>, bulk1: seq<string>,
                    bulk2: seq<string>, trim: bool): (r: Result<nat>)
    ensures outIsDir ==> r == Err(OutputDirExists)
    ensures !outIsDir && filial < 2 ==> r == Err(FilialTooSmall)
  {
    if outIsDir then Err(OutputDirExists)
    else if filial < 2 then Err(FilialTooSmall)
    else
      match AddGroup(AddGroup(AddGroup(Ok(0), Parent, parent), Bulk1, bulk1), Bulk2, bulk2)
      case Err(e) => Err(e)
      case Ok(n) => if n == 0 && trim then Err(TrimWithoutFastq) else Ok(n)
  }

  // ---------------------------------------------------------------------------
  // Properties of the verdict

  /** Once a prefix of the arguments is rejected, the whole list is rejected
      with the same error. */
  lemma {:induction false} ValidateGroupPrefixErr(g: Group, names: seq<string>, i: nat)
    requires i <= |names|
    requires ValidateGroup(g, names[..i]).Err?
    ensures ValidateGroup(g, names) == ValidateGroup(g, names[..i])
    decreases |names| - i
  {
    hide ClassifyEntry;
    if i < |names| {
      assert names[..i + 1][..i] == names[..i];
      ValidateGroupPrefixErr(g, names, i + 1);
    } else {
      assert names[..i] == names;
    }
  }

  /** An accepted prefix followed by an accepted argument is an accepted
      prefix, one FASTQ pair longer when the argument is a pair. */
  lemma ValidateGroupStepOk(g: Group, names: seq<string>, i: nat, n: nat)
    requires i < |names|
    requires ValidateGroup(g, names[..i]) == Ok(n)
    requires ClassifyEntry(g, names[i]).Ok?
    ensures ValidateGroup(g, names[..i + 1]) ==
            Ok(n + if ClassifyEntry(g, names[i]).value == FastqPair then 1 else 0)
  {
    hide ClassifyEntry;
    assert names[..i + 1][..i] == names[..i];
  }

  /** An accepted prefix followed by a rejected argument rejects the whole
      option with that argument's error. */
  lemma ValidateGroupStepErr(g: Group, names: seq<string>, i: nat)
    requires i < |names|
    requires ValidateGroup(g, names[..i]).Ok?
    requires ClassifyEntry(g, names[i]).Err?
    ensures ValidateGroup(g, names) == Err(ClassifyEntry(g, names[i]).error)
  {
    hide ClassifyEntry;
    assert names[..i + 1][..i] == names[..i];
    ValidateGroupPrefixErr(g, names, i + 1);
  }

  /** The arguments of one option are accepted exactly when each is. */
  lemma {:induction false} ValidateGroupOkIff(g: Group, names: seq<string>)
    ensures ValidateGroup(g, names).Ok? <==> forall i :: 0 <= i < |names| ==> ClassifyEntry(g, names[i]).Ok?
  {
    hide ClassifyEntry;
    if |names| > 0 {
      var last := |names| - 1;
      var init := names[..last];
      ValidateGroupOkIff(g, init);
      assert forall i :: 0 <= i < last ==> init[i] == names[i];
    }
  }

  /** ... and so exactly when each is acceptable. */
  lemma AllEntriesValid(g: Group, names: seq<string>)
    ensures ValidateGroup(g, names).Ok? <==> forall i :: 0 <= i < |names| ==> ValidEntry(names[i])
  {
    ValidateGroupOkIff(g, names);
    forall i | 0 <= i < |names| ensures ClassifyEntry(g, names[i]).Ok? <==> ValidEntry(names[i]) {
      ClassifyEntryOkIff(g, names[i]);
    }
  }

  /** A rejected option reports the error of its first unacceptable argument. */
  lemma {:induction false} ValidateGroupFirstError(g: Group, names: seq<string>)
    requires ValidateGroup(g, names).Err?
    ensures exists i :: 0 <= i < |names| && ClassifyEntry(g, names[i]) == Err(ValidateGroup(g, names).error) &&
                        forall j :: 0 <= j < i ==> ValidEntry(names[j])
  {
    hide ClassifyEntry;
    var init := names[..|names| - 1];
    assert forall i :: 0 <= i < |init| ==> init[i] == names[i];
    if ValidateGroup(g, init).Err? {
      ValidateGroupFirstError(g, init);
    } else {
      AllEntriesValid(g, init);
      var last := |names| - 1;
      assert ClassifyEntry(g, names[last]) == Err(ValidateGroup(g, names).error);
    }
  }

  /** On success the result is the number of FASTQ pairs over the three
      options, so at most the number of arguments; the `--trim` error only
      arises when there is no pair. */
  lemma ValidateCount(outIsDir: bool, filial: int, parent: seq<string>, bulk1: seq<string>,
                      bulk2: seq<string>, trim: bool)
    ensures var r := Validate(outIsDir, filial, parent, bulk1, bulk2, trim);
            (r.Ok? ==> r.value == NumPairs(parent) + NumPairs(bulk1) + NumPairs(bulk2) &&
                       r.value <= |parent| + |bulk1| + |bulk2|) &&
            (r == Err(TrimWithoutFastq) ==> trim && NumPairs(parent) + NumPairs(bulk1) + NumPairs(bulk2) == 0)
  {
    hide ClassifyEntry;
  }

  /** `check_args` accepts exactly when the output directory is new, the filial
      generation is at least 2, every argument is acceptable and `--trim` is
      not given without a FASTQ pair. */
  lemma ValidateOkIff(outIsDir: bool, filial: int, parent: seq<string>, bulk1: seq<string>,
                      bulk2: seq<string>, trim: bool)
    ensures Validate(outIsDir, filial, parent, bulk1, bulk2, trim).Ok? <==>
            !outIsDir && 2 <= filial &&
            (forall i :: 0 <= i < |parent| ==> ValidEntry(parent[i])) &&
            (forall i :: 0 <= i < |bulk1| ==> ValidEntry(bulk1[i])) &&
            (forall i :: 0 <= i < |bulk2| ==> ValidEntry(bulk2[i])) &&
            !(trim && NumPairs(parent) + NumPairs(bulk1) + NumPairs(bulk2) == 0)
  {
    AllEntriesValid(Parent, parent);
    AllEntriesValid(Bulk1, bulk1);
    AllEntriesValid(Bulk2, bulk2);
  }

  /** An unacceptable argument in any of the three options rejects the call. */
  lemma InvalidEntryRejects(outIsDir: bool, filial: int, parent: seq<string>, bulk1: seq<string>,
                            bulk2: seq<string>, trim: bool, name: string)
    requires name in parent || name in bulk1 || name in bulk2
    requires !ValidEntry(name)
    ensures Validate(outIsDir, filial, parent, bulk1, bulk2, trim).Err?
  {
    ValidateOkIff(outIsDir, filial, parent, bulk1, bulk2, trim);
  }

  /** An argument without a comma whose path is not a BAM path rejects the call. */
  lemma BareEntryMustBeBam(outIsDir: bool, filial: int, parent: seq<string>, bulk1: seq<string>,
                           bulk2: seq<string>, trim: bool, name: string)
    requires name in parent || name in bulk1 || name in bulk2
    requires Count(name, ',') == 0 && !IsBamPath(name)
    ensures Validate(outIsDir, filial, parent, bulk1, bulk2, trim).Err?
  {
    ExtensionIsBamIff(name);
    InvalidEntryRejects(outIsDir, filial, parent, bulk1, bulk2, trim, name);
  }

  /** An argument `a,b` where `a` or `b` is a BAM path rejects the call. */
  lemma PairMustNotHoldBam(outIsDir: bool, filial: int, parent: seq<string>, bulk1: seq<string>,
                           bulk2: seq<string>, trim: bool, a: string, b: string)
    requires a + "," + b in parent || a + "," + b in bulk1 || a + "," + b in bulk2
    requires ',' !in a && ',' !in b
    requires IsBamPath(a) || IsBamPath(b)
    ensures Validate(outIsDir, filial, parent, bulk1, bulk2, trim).Err?
  {
    var name := a + "," + b;
    SplitJoin([a, b], ',');
    assert Join([a, b], ',') == name;
    ExtensionIsBamIff(a);
    ExtensionIsBamIff(b);
    InvalidEntryRejects(outIsDir, filial, parent, bulk1, bulk2, trim, name);
  }

  /** An argument with two or more commas rejects the call. */
  lemma TooManyCommasRejects(outIsDir: bool, filial: int, parent: seq<string>, bulk1: seq<string>,
                             bulk2: seq<string>, trim: bool, name: string)
    requires name in parent || name in bulk1 || name in bulk2
    requires Count(name, ',') >= 2
    ensures Validate(outIsDir, filial, parent, bulk1, bulk2, trim).Err?
  {
    InvalidEntryRejects(outIsDir, filial, parent, bulk1, bulk2, trim, name);
  }

  /** `--trim` without any FASTQ pair is rejected once everything else passes. */
  lemma TrimNeedsFastq(filial: int, parent: seq<string>, bulk1: seq<string>, bulk2: seq<string>)
    requires 2 <= filial
    requires forall i :: 0 <= i < |parent| ==> ValidEntry(parent[i])
    requires forall i :: 0 <= i < |bulk1| ==> ValidEntry(bulk1[i])
    requires forall i :: 0 <= i < |bulk2| ==> ValidEntry(bulk2[i])
    requires NumPairs(parent) + NumPairs(bulk1) + NumPairs(bulk2) == 0
    ensures Validate(false, filial, parent, bulk1, bulk2, true) == Err(TrimWithoutFastq)
  {
    AllEntriesValid(Parent, parent);
    AllEntriesValid(Bulk1, bulk1);
    AllEntriesValid(Bulk2, bulk2);
  }

  /** With at least one FASTQ pair, `--trim` never changes the verdict. */
  lemma TrimIrrelevantWithFastq(outIsDir: bool, filial: int, parent: seq<string>,
                                bulk1: seq<string>, bulk2: seq<string>)
    requires NumPairs(parent) + NumPairs(bulk1) + NumPairs(bulk2) >= 1
    ensures Validate(outIsDir, filial, parent, bulk1, bulk2, true) ==
            Validate(outIsDir, filial, parent, bulk1, bulk2, false)
  {
    hide ClassifyEntry;
  }

  // ---------------------------------------------------------------------------
  // The check as the program runs it

  /** The body of the `check_args` loops for one argument: no comma needs a
      `.bam` extension; one comma needs both halves to have another extension;
      more commas are refused. */
  method CheckEntry(g: Group, inputName: string) returns (r: Result<InputKind>)
    ensures r == ClassifyEntry(g, inputName)
  {
    var nComma := Count(inputName, ',');
    if nComma == 0 {
      if Extension(inputName) != ".bam" {
        return Err(NotBam(g, inputName));
      }
      return Ok(Bam);
    } else if nComma == 1 {
      var fastqs := Split(inputName, ',');
      var j := 0;
      while j < |fastqs|
        invariant 0 <= j <= |fastqs|
        invariant forall k :: 0 <= k < j ==> Extension(fastqs[k]) != ".bam"
      {
        if Extension(fastqs[j]) == ".bam" {
          return Err(BamInPair(g, inputName));
        }
        j := j + 1;
      }
      return Ok(FastqPair);
    } else {
      return Err(TooManyCommas(g, inputName));
    }
  }

  /** One of the three loops of `check_args`: walks the arguments of option
      `g`, stops at the first unacceptable one, and otherwise adds the number
      of FASTQ pairs to the running count `nFastq`. */
  method CheckGroup(g: Group, names: seq<string>, nFastq: nat) returns (r: Result<nat>)
    ensures r == AddGroup(Ok(nFastq), g, names)
  {
    hide ClassifyEntry;
    var count := nFastq;
    var i := 0;
    while i < |names|
      invariant 0 <= i <= |names|
      invariant nFastq <= count
      invariant ValidateGroup(g, names[..i]) == Ok(count - nFastq)
    {
      var entry := CheckEntry(g, names[i]);
      if entry.Err? {
        ValidateGroupStepErr(g, names, i);
        return Err(entry.error);
      }
      ValidateGroupStepOk(g, names, i, count - nFastq);
      if entry.value == FastqPair {
        count := count + 1;
      }
      i := i + 1;
    }
    assert names[..i] == names;
    r := Ok(count);
  }

  /** `check_args`: the output-directory test, the filial test, the three
      argument loops sharing one FASTQ-pair count, and the `--trim` test. */
  method CheckArgs(args: Args, outIsDir: bool) returns (r: Result<nat>)
    ensures r == Validate(outIsDir, args.filial, args.parent, args.bulk1, args.bulk2, args.trim)
  {
    if outIsDir {
      return Err(OutputDirExists);
    }
    if args.filial < 2 {
      return Err(FilialTooSmall);
    }
    var nFastq := 0;
    var res := CheckGroup(Parent, args.parent, nFastq);
    if res.Err? {
      return res;
    }
    nFastq := res.value;
    res := CheckGroup(Bulk1, args.bulk1, nFastq);
    if res.Err? {
      return res;
    }
    nFastq := res.value;
    res := CheckGroup(Bulk2, args.bulk2, nFastq);
    if res.Err? {
      return res;
    }
    nFastq := res.value;
    if nFastq == 0 && args.trim {
      return Err(TrimWithoutFastq);
    }
    r := Ok(nFastq);
  }
}
