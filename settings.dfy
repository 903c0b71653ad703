/**
 * The PolyChord settings object: the run parameters handed to the external
 * nested-sampling engine, built from the dimensionality `nDims` and a
 * dictionary of keyword overrides. Each of the 21 recognised options takes its
 * override if one is given and its default otherwise; three defaults scale
 * with `nDims` and two follow options resolved before them. Construction then
 * fails on a leftover unknown keyword, on grade lists of different lengths,
 * and on grade dimensions that do not add up to `nDims`, in that order.
 */
module Settings {
  import opened Wrappers
  import opened PyBuiltins

  /** A Python value passed as a keyword argument. */
  datatype Value =
    | IntV(i: int)
    | BoolV(b: bool)
    | FloatV(f: real)
    | StrV(s: string)
    | IntListV(ints: seq<int>)
    | FloatListV(floats: seq<real>)

  /** The number of keyword options the constructor consumes. */
  const OptionCount: nat := 21

  /** The keyword name of the option popped at position `n`. */
  function Name(n: nat): string
    requires n < OptionCount
  {
    match n
    case 0 => "nlive"
    case 1 => "num_repeats"
    case 2 => "do_clustering"
    case 3 => "feedback"
    case 4 => "precision_criterion"
    case 5 => "max_ndead"
    case 6 => "boost_posterior"
    case 7 => "posteriors"
    case 8 => "equals"
    case 9 => "cluster_posteriors"
    case 10 => "write_resume"
    case 11 => "write_paramnames"
    case 12 => "read_resume"
    case 13 => "write_stats"
    case 14 => "write_live"
    case 15 => "write_dead"
    case 16 => "update_files"
    case 17 => "base_dir"
    case 18 => "file_root"
    case 19 => "grade_dims"
    case _ => "grade_frac"
  }

  /** Positions of the options, in the order the constructor pops them. */
  const NLive: nat := 0
  const NumRepeats: nat := 1
  const DoClustering: nat := 2
  const Feedback: nat := 3
  const PrecisionCriterion: nat := 4
  const MaxNdead: nat := 5
  const BoostPosterior: nat := 6
  const Posteriors: nat := 7
  const Equals: nat := 8
  const ClusterPosteriors: nat := 9
  const WriteResume: nat := 10
  const WriteParamnames: nat := 11
  const ReadResume: nat := 12
  const WriteStats: nat := 13
  const WriteLive: nat := 14
  const WriteDead: nat := 15
  const UpdateFiles: nat := 16
  const BaseDir: nat := 17
  const FileRoot: nat := 18
  const GradeDims: nat := 19
  const GradeFrac: nat := 20

  /** The recognised keyword names. */
  const Recognised: set<string> := set n | 0 <= n < OptionCount :: Name(n)

  /**
   * The grade overrides, when given, are lists of the element type the
   * constructor's `len` and `sum` expect.
   */
  predicate GradesTyped(kwargs: map<string, Value>)
  {
    && (Name(GradeDims) in kwargs ==> kwargs[Name(GradeDims)].IntListV?)
    && (Name(GradeFrac) in kwargs ==> kwargs[Name(GradeFrac)].FloatListV?)
  }

  /**
   * The resolved options, one field per option. An option is stored as the
   * value given, whatever its type; only the grade lists, which the
   * constructor measures and sums, are typed.
   */
  datatype Bundle = Bundle(
    nlive: Value,
    numRepeats: Value,
    doClustering: Value,
    feedback: Value,
    precisionCriterion: Value,
    maxNdead: Value,
    boostPosterior: Value,
    posteriors: Value,
    equals: Value,
    clusterPosteriors: Value,
    writeResume: Value,
    writeParamnames: Value,
    readResume: Value,
    writeStats: Value,
    writeLive: Value,
    writeDead: Value,
    updateFiles: Value,
    baseDir: Value,
    fileRoot: Value,
    gradeDims: seq<int>,
    gradeFrac: seq<real>)
  {
    /** The value stored for the option at position `n`. */
    function Field(n: nat): Value
      requires n < OptionCount
    {
      match n
      case 0 => nlive
      case 1 => numRepeats
      case 2 => doClustering
      case 3 => feedback
      case 4 => precisionCriterion
      case 5 => maxNdead
      case 6 => boostPosterior
      case 7 => posteriors
      case 8 => equals
      case 9 => clusterPosteriors
      case 10 => writeResume
      case 11 => writeParamnames
      case 12 => readResume
      case 13 => writeStats
      case 14 => writeLive
      case 15 => writeDead
      case 16 => updateFiles
      case 17 => baseDir
      case 18 => fileRoot
      case 19 => IntListV(gradeDims)
      case _ => FloatListV(gradeFrac)
    }
  }

  /**
   * The default of the option at position `n` for dimensionality `nDims`,
   * given the bundle `b` whose earlier options are already resolved:
   * `update_files` follows the resolved `nlive`, `grade_frac` the length of
   * the resolved `grade_dims`.
   */
  function Default(nDims: int, b: Bundle, n: nat): Value
    requires n < OptionCount
  {
    match n
    case 0 => IntV(nDims * 25)
    case 1 => IntV(nDims * 5)
    case 2 => BoolV(true)
    case 3 => IntV(1)
    case 4 => FloatV(0.001)
    case 5 => IntV(-1)
    case 6 => FloatV(0.0)
    case 7 => BoolV(true)
    case 8 => BoolV(true)
    case 9 => BoolV(true)
    case 10 => BoolV(true)
    case 11 => BoolV(false)
    case 12 => BoolV(true)
    case 13 => BoolV(true)
    case 14 => BoolV(true)
    case 15 => BoolV(true)
    case 16 => b.nlive
    case 17 => StrV("chains")
    case 18 => StrV("test")
    case 19 => IntListV([nDims])
    case _ => FloatListV(Repeat(1.0, |b.gradeDims|))
  }

  /** `d.get(key, default)`. */
  function GetOr(d: map<string, Value>, key: string, default: Value): Value
  {
    if key in d then d[key] else default
  }

  /** The elements of a list of ints (empty for any other value, which `GradesTyped` rules out for the grades). */
  function AsInts(v: Value): seq<int>
  {
    if v.IntListV? then v.ints else []
  }

  /** The elements of a list of floats (empty for any other value, which `GradesTyped` rules out for the grades). */
  function AsFloats(v: Value): seq<real>
  {
    if v.FloatListV? then v.floats else []
  }

  /**
   * Default resolution, read off the overrides as given: each option is its
   * override if there is one and its default otherwise, with `update_files`
   * and `grade_frac` defaulting from the resolved `nlive` and `grade_dims`.
   */
  function Resolve(nDims: int, kwargs: map<string, Value>): Bundle
  {
    var nlive := GetOr(kwargs, Name(NLive), IntV(nDims * 25));
    var gradeDims := AsInts(GetOr(kwargs, Name(GradeDims), IntListV([nDims])));
    Bundle(
      nlive := nlive,
      numRepeats := GetOr(kwargs, Name(NumRepeats), IntV(nDims * 5)),
      doClustering := GetOr(kwargs, Name(DoClustering), BoolV(true)),
      feedback := GetOr(kwargs, Name(Feedback), IntV(1)),
      precisionCriterion := GetOr(kwargs, Name(PrecisionCriterion), FloatV(0.001)),
      maxNdead := GetOr(kwargs, Name(MaxNdead), IntV(-1)),
      boostPosterior := GetOr(kwargs, Name(BoostPosterior), FloatV(0.0)),
      posteriors := GetOr(kwargs, Name(Posteriors), BoolV(true)),
      equals := GetOr(kwargs, Name(Equals), BoolV(true)),
      clusterPosteriors := GetOr(kwargs, Name(ClusterPosteriors), BoolV(true)),
      writeResume := GetOr(kwargs, Name(WriteResume), BoolV(true)),
      writeParamnames := GetOr(kwargs, Name(WriteParamnames), BoolV(false)),
      readResume := GetOr(kwargs, Name(ReadResume), BoolV(true)),
      writeStats := GetOr(kwargs, Name(WriteStats), BoolV(true)),
      writeLive := GetOr(kwargs, Name(WriteLive), BoolV(true)),
      writeDead := GetOr(kwargs, Name(WriteDead), BoolV(true)),
      updateFiles := GetOr(kwargs, Name(UpdateFiles), nlive),
      baseDir := GetOr(kwargs, Name(BaseDir), StrV("chains")),
      fileRoot := GetOr(kwargs, Name(FileRoot), StrV("test")),
      gradeDims := gradeDims,
      gradeFrac := AsFloats(GetOr(kwargs, Name(GradeFrac), FloatListV(Repeat(1.0, |gradeDims|)))))
  }

  /** The overrides whose names the constructor does not consume. */
  function Unexpected(kwargs: map<string, Value>): map<string, Value>
  {
    map k | k in kwargs && k !in Recognised :: kwargs[k]
  }

  /** The three ways construction fails. */
  datatype SettingsError =
    | UnexpectedKwargs(leftover: map<string, Value>)
    | GradeLengthMismatch(fracLength: nat, dimsLength: nat)
    | GradeSumMismatch(gradeDims: seq<int>, nDims: int)
  {
    /** The Python exception class raised for this failure. */
    function Raises(): ExceptionClass
    {
      if UnexpectedKwargs? then TypeError else ValueError
    }
  }

  datatype ExceptionClass = TypeError | ValueError

  /** The whole constructor: resolve, then run the three checks in order. */
  function Build(nDims: int, kwargs: map<string, Value>): Result<Bundle, SettingsError>
    requires GradesTyped(kwargs)
  {
    var b := Resolve(nDims, kwargs);
    if Unexpected(kwargs) != map[] then Failure(UnexpectedKwargs(Unexpected(kwargs)))
    else if |b.gradeFrac| != |b.gradeDims| then Failure(GradeLengthMismatch(|b.gradeFrac|, |b.gradeDims|))
    else if Sum(b.gradeDims) != nDims then Failure(GradeSumMismatch(b.gradeDims, nDims))
    else Success(b)
  }

  /** The option names popped before position `n`. */
  function Consumed(n: nat): set<string>
    requires n <= OptionCount
  {
    set i | 0 <= i < n :: Name(i)
  }

  /** What is left of `kwargs` once the options before position `n` are popped. */
  function Remaining(kwargs: map<string, Value>, n: nat): map<string, Value>
    requires n <= OptionCount
  {
    map k | k in kwargs && k !in Consumed(n) :: kwargs[k]
  }

  /** Popping every position consumes exactly the recognised names. */
  lemma ConsumedAll()
    ensures Consumed(OptionCount) == Recognised
  {
  }

  /** No option name is popped twice. */
  lemma NamesDistinct()
    ensures forall i, j :: 0 <= i < j < OptionCount ==> Name(i) != Name(j)
  {
  }

  /**
   * `kw.pop(Name(n), default)` while the constructor consumes its options:
   * `kw` is what remains of `kwargs` once the options before position `n`
   * are popped, so the value popped is the one `kwargs.get` gives.
   */
  method PopOption(kw: map<string, Value>, n: nat, default: Value, ghost kwargs: map<string, Value>)
    returns (v: Value, rest: map<string, Value>)
    requires n < OptionCount
    requires kw == Remaining(kwargs, n)
    ensures v == GetOr(kwargs, Name(n), default)
    ensures rest == Remaining(kwargs, n + 1)
  {
    var key := Name(n);
    NamesDistinct();
    assert key !in Consumed(n);
    assert Consumed(n + 1) == Consumed(n) + {key};
    v := if key in kw then kw[key] else default;
    rest := kw - {key};
  }

  /** A settings object; its fields are the resolved options. */
  class PolyChordSettings {
    var nlive: Value
    var numRepeats: Value
    var doClustering: Value
    var feedback: Value
    var precisionCriterion: Value
    var maxNdead: Value
    var boostPosterior: Value
    var posteriors: Value
    var equals: Value
    var clusterPosteriors: Value
    var writeResume: Value
    var writeParamnames: Value
    var readResume: Value
    var writeStats: Value
    var writeLive: Value
    var writeDead: Value
    var updateFiles: Value
    var baseDir: Value
    var fileRoot: Value
    var gradeDims: seq<int>
    var gradeFrac: seq<real>

    /** The object's fields as a value. */
    function Fields(): Bundle
      reads this
    {
      Bundle(
        nlive, numRepeats, doClustering, feedback,
        precisionCriterion, maxNdead, boostPosterior, posteriors,
        equals, clusterPosteriors, writeResume, writeParamnames,
        readResume, writeStats, writeLive, writeDead,
        updateFiles, baseDir, fileRoot, gradeDims,
        gradeFrac)
    }

    /**
     * The clusters subdirectory of the current base directory, computed on
     * each read rather than stored; `base_dir` must then be a string.
     */
    function ClusterDir(): (path: string)
      reads this
      requires baseDir.StrV?
      ensures |path| >= 8 && path[|path| - 8..] == "clusters"
      ensures baseDir.s <= path
      ensures baseDir.s != "" && baseDir.s[|baseDir.s| - 1] != '/' ==> path == baseDir.s + "/clusters"
    {
      var leaf := "clusters";
      assert |leaf| == 8 && leaf[0] != Sep;
      Join(baseDir.s, leaf)
    }

    /**
     * Pops the sampling options, `nlive` to `boost_posterior`, in the order the
     * initialiser does; `nlive` is first set to its default, as the
     * initialiser does before it pops it.
     */
    method PopSamplingOptions(nDims: int, kw: map<string, Value>, ghost kwargs: map<string, Value>) returns (rest: map<string, Value>)
      requires kw == kwargs
      modifies this`nlive, this`numRepeats, this`doClustering, this`feedback, this`precisionCriterion, this`maxNdead, this`boostPosterior
      ensures nlive == GetOr(kwargs, Name(NLive), IntV(nDims * 25))
      ensures numRepeats == GetOr(kwargs, Name(NumRepeats), IntV(nDims * 5))
      ensures doClustering == GetOr(kwargs, Name(DoClustering), BoolV(true))
      ensures feedback == GetOr(kwargs, Name(Feedback), IntV(1))
      ensures precisionCriterion == GetOr(kwargs, Name(PrecisionCriterion), FloatV(0.001))
      ensures maxNdead == GetOr(kwargs, Name(MaxNdead), IntV(-1))
      ensures boostPosterior == GetOr(kwargs, Name(BoostPosterior), FloatV(0.0))
      ensures rest == Remaining(kwargs, Posteriors)
    {
      var v: Value;
      rest := kw;
      nlive := IntV(nDims * 25);
      v, rest := PopOption(rest, NLive, IntV(nDims * 25), kwargs);
      nlive := v;
      v, rest := PopOption(rest, NumRepeats, IntV(nDims * 5), kwargs);
      numRepeats := v;
      v, rest := PopOption(rest, DoClustering, BoolV(true), kwargs);
      doClustering := v;
      v, rest := PopOption(rest, Feedback, IntV(1), kwargs);
      feedback := v;
      v, rest := PopOption(rest, PrecisionCriterion, FloatV(0.001), kwargs);
      precisionCriterion := v;
      v, rest := PopOption(rest, MaxNdead, IntV(-1), kwargs);
      maxNdead := v;
      v, rest := PopOption(rest, BoostPosterior, FloatV(0.0), kwargs);
      boostPosterior := v;
    }

    /** Pops the output flags, `posteriors` to `write_dead`. */
    method PopOutputFlags(kw: map<string, Value>, ghost kwargs: map<string, Value>) returns (rest: map<string, Value>)
      requires kw == Remaining(kwargs, Posteriors)
      modifies this`posteriors, this`equals, this`clusterPosteriors, this`writeResume, this`writeParamnames, this`readResume, this`writeStats, this`writeLive, this`writeDead
      ensures posteriors == GetOr(kwargs, Name(Posteriors), BoolV(true))
      ensures equals == GetOr(kwargs, Name(Equals), BoolV(true))
      ensures clusterPosteriors == GetOr(kwargs, Name(ClusterPosteriors), BoolV(true))
      ensures writeResume == GetOr(kwargs, Name(WriteResume), BoolV(true))
      ensures writeParamnames == GetOr(kwargs, Name(WriteParamnames), BoolV(false))
      ensures readResume == GetOr(kwargs, Name(ReadResume), BoolV(true))
      ensures writeStats == GetOr(kwargs, Name(WriteStats), BoolV(true))
      ensures writeLive == GetOr(kwargs, Name(WriteLive), BoolV(true))
      ensures writeDead == GetOr(kwargs, Name(WriteDead), BoolV(true))
      ensures rest == Remaining(kwargs, UpdateFiles)
    {
      var v: Value;
      rest := kw;
      v, rest := PopOption(rest, Posteriors, BoolV(true), kwargs);
      posteriors := v;
      v, rest := PopOption(rest, Equals, BoolV(true), kwargs);
      equals := v;
      v, rest := PopOption(rest, ClusterPosteriors, BoolV(true), kwargs);
      clusterPosteriors := v;
      v, rest := PopOption(rest, WriteResume, BoolV(true), kwargs);
      writeResume := v;
      v, rest := PopOption(rest, WriteParamnames, BoolV(false), kwargs);
      writeParamnames := v;
      v, rest := PopOption(rest, ReadResume, BoolV(true), kwargs);
      readResume := v;
      v, rest := PopOption(rest, WriteStats, BoolV(true), kwargs);
      writeStats := v;
      v, rest := PopOption(rest, WriteLive, BoolV(true), kwargs);
      writeLive := v;
      v, rest := PopOption(rest, WriteDead, BoolV(true), kwargs);
      writeDead := v;
    }

    /**
     * Pops `update_files`, whose default is the `nlive` already stored, then
     * `base_dir` and `file_root`.
     */
    method PopFileOptions(kw: map<string, Value>, ghost kwargs: map<string, Value>) returns (rest: map<string, Value>)
      requires kw == Remaining(kwargs, UpdateFiles)
      modifies this`updateFiles, this`baseDir, this`fileRoot
      ensures updateFiles == GetOr(kwargs, Name(UpdateFiles), nlive)
      ensures baseDir == GetOr(kwargs, Name(BaseDir), StrV("chains"))
      ensures fileRoot == GetOr(kwargs, Name(FileRoot), StrV("test"))
      ensures rest == Remaining(kwargs, GradeDims)
    {
      var v: Value;
      rest := kw;
      v, rest := PopOption(rest, UpdateFiles, nlive, kwargs);
      updateFiles := v;
      v, rest := PopOption(rest, BaseDir, StrV("chains"), kwargs);
      baseDir := v;
      v, rest := PopOption(rest, FileRoot, StrV("test"), kwargs);
      fileRoot := v;
    }

    /**
     * Pops `grade_dims`, then `grade_frac`, whose default has one `1.0` per
     * entry of the `grade_dims` just stored; after it nothing recognised is left.
     */
    method PopGradeOptions(nDims: int, kw: map<string, Value>, ghost kwargs: map<string, Value>) returns (rest: map<string, Value>)
      requires kw == Remaining(kwargs, GradeDims)
      modifies this`gradeDims, this`gradeFrac
      ensures gradeDims == AsInts(GetOr(kwargs, Name(GradeDims), IntListV([nDims])))
      ensures gradeFrac == AsFloats(GetOr(kwargs, Name(GradeFrac), FloatListV(Repeat(1.0, |gradeDims|))))
      ensures rest == Unexpected(kwargs)
    {
      var v: Value;
      rest := kw;
      v, rest := PopOption(rest, GradeDims, IntListV([nDims]), kwargs);
      gradeDims := AsInts(v);
      v, rest := PopOption(rest, GradeFrac, FloatListV(Repeat(1.0, |gradeDims|)), kwargs);
      gradeFrac := AsFloats(v);
      ConsumedAll();
    }

    /** Pops the sampling options and output flags; each field ends up as resolved. */
    method PopTunables(nDims: int, kw: map<string, Value>, ghost kwargs: map<string, Value>) returns (rest: map<string, Value>)
      requires kw == kwargs
      modifies this`nlive, this`numRepeats, this`doClustering, this`feedback, this`precisionCriterion, this`maxNdead, this`boostPosterior, this`posteriors, this`equals, this`clusterPosteriors, this`writeResume, this`writeParamnames, this`readResume, this`writeStats, this`writeLive, this`writeDead
      ensures nlive == Resolve(nDims, kwargs).nlive
      ensures numRepeats == Resolve(nDims, kwargs).numRepeats
      ensures doClustering == Resolve(nDims, kwargs).doClustering
      ensures feedback == Resolve(nDims, kwargs).feedback
      ensures precisionCriterion == Resolve(nDims, kwargs).precisionCriterion
      ensures maxNdead == Resolve(nDims, kwargs).maxNdead
      ensures boostPosterior == Resolve(nDims, kwargs).boostPosterior
      ensures posteriors == Resolve(nDims, kwargs).posteriors
      ensures equals == Resolve(nDims, kwargs).equals
      ensures clusterPosteriors == Resolve(nDims, kwargs).clusterPosteriors
      ensures writeResume == Resolve(nDims, kwargs).writeResume
      ensures writeParamnames == Resolve(nDims, kwargs).writeParamnames
      ensures readResume == Resolve(nDims, kwargs).readResume
      ensures writeStats == Resolve(nDims, kwargs).writeStats
      ensures writeLive == Resolve(nDims, kwargs).writeLive
      ensures writeDead == Resolve(nDims, kwargs).writeDead
      ensures rest == Remaining(kwargs, UpdateFiles)
    {
      rest := PopSamplingOptions(nDims, kw, kwargs);
      rest := PopOutputFlags(rest, kwargs);
    }

    /** Pops the file options and grades; each field ends up as resolved and only the unknown keywords are left. */
    method PopPaths(nDims: int, kw: map<string, Value>, ghost kwargs: map<string, Value>) returns (rest: map<string, Value>)
      requires kw == Remaining(kwargs, UpdateFiles)
      requires nlive == Resolve(nDims, kwargs).nlive
      modifies this`updateFiles, this`baseDir, this`fileRoot, this`gradeDims, this`gradeFrac
      ensures updateFiles == Resolve(nDims, kwargs).updateFiles
      ensures baseDir == Resolve(nDims, kwargs).baseDir
      ensures fileRoot == Resolve(nDims, kwargs).fileRoot
      ensures gradeDims == Resolve(nDims, kwargs).gradeDims
      ensures gradeFrac == Resolve(nDims, kwargs).gradeFrac
      ensures rest == Unexpected(kwargs)
    {
      rest := PopFileOptions(kw, kwargs);
      rest := PopGradeOptions(nDims, rest, kwargs);
    }

    /** Pops every recognised option into its field; returns what is left. */
    method PopOptions(nDims: int, kwargs: map<string, Value>) returns (kw: map<string, Value>)
      modifies this
      ensures Bundle(nlive, numRepeats, doClustering, feedback, precisionCriterion, maxNdead, boostPosterior, posteriors, equals, clusterPosteriors, writeResume, writeParamnames, readResume, writeStats, writeLive, writeDead, updateFiles, baseDir, fileRoot, gradeDims, gradeFrac) == Resolve(nDims, kwargs)
      ensures kw == Unexpected(kwargs)
    {
      kw := PopTunables(nDims, kwargs, kwargs);
      kw := PopPaths(nDims, kw, kwargs);
    }

    /**
     * The initialiser: assigns every field from the override popped out of
     * `kwargs`, or from its default, then raises if anything is left over, if
     * the grade lists differ in length, or if the grade dimensions do not sum
     * to `nDims`. `nDerived` is accepted and not used. The error returned is
     * the exception raised.
     */
    method Init(nDims: int, nDerived: int, kwargs: map<string, Value>) returns (error: Option<SettingsError>)
      requires GradesTyped(kwargs)
      modifies this
      ensures Fields() == Resolve(nDims, kwargs)
      ensures Build(nDims, kwargs) == if error.None? then Success(Fields()) else Failure(error.value)
    {
      var kw := PopOptions(nDims, kwargs);
      if kw != map[] {
        return Some(UnexpectedKwargs(kw));
      }
      if |gradeFrac| != |gradeDims| {
        return Some(GradeLengthMismatch(|gradeFrac|, |gradeDims|));
      }
      if Sum(gradeDims) != nDims {
        return Some(GradeSumMismatch(gradeDims, nDims));
      }
      return None;
    }
  }

  /**
   * `PolyChordSettings(nDims, nDerived, **kwargs)`: a fresh object on success,
   * the raised error otherwise.
   */
  method Construct(nDims: int, nDerived: int, kwargs: map<string, Value>)
    returns (r: Result<PolyChordSettings, SettingsError>)
    requires GradesTyped(kwargs)
    ensures r.Success? <==> Build(nDims, kwargs).Success?
    ensures r.Success? ==> fresh(r.value) && r.value.Fields() == Build(nDims, kwargs).value
    ensures r.Failure? ==> r.error == Build(nDims, kwargs).error
  {
    var s := new PolyChordSettings;
    var error := s.Init(nDims, nDerived, kwargs);
    r := if error.None? then Success(s) else Failure(error.value);
  }
}
