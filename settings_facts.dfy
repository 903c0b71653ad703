/**
 * What the settings constructor promises, stated over the specification
 * functions `Resolve` and `Build` that the initialiser is proved against:
 * defaults, defaults that follow other options, the fate of unknown keywords,
 * the order of the three checks, and the grade invariants of a successful
 * construction.
 */
module SettingsFacts {
  import opened Wrappers
  import opened PyBuiltins
  import opened Settings

  /** With no overrides, every option takes its default. */
  lemma NoOverrides(nDims: int)
    ensures Resolve(nDims, map[]).nlive == IntV(25 * nDims)
    ensures Resolve(nDims, map[]).numRepeats == IntV(5 * nDims)
    ensures Resolve(nDims, map[]).updateFiles == IntV(25 * nDims)
    ensures Resolve(nDims, map[]).baseDir == StrV("chains")
    ensures Resolve(nDims, map[]).fileRoot == StrV("test")
    ensures Resolve(nDims, map[]).gradeDims == [nDims]
    ensures Resolve(nDims, map[]).gradeFrac == [1.0]
    ensures Build(nDims, map[]) == Success(Resolve(nDims, map[]))
  {
    assert Unexpected(map[]) == map[];
    assert Sum([nDims]) == nDims;
  }

  /**
   * Every recognised option holds its override, unchanged, when one is
   * given, and its default otherwise.
   */
  lemma StoredOrDefault(nDims: int, kwargs: map<string, Value>, n: nat)
    requires GradesTyped(kwargs)
    requires n < OptionCount
    ensures Resolve(nDims, kwargs).Field(n)
         == if Name(n) in kwargs then kwargs[Name(n)] else Default(nDims, Resolve(nDims, kwargs), n)
  {
  }

  /** `update_files` follows the resolved `nlive`, overridden or not. */
  lemma UpdateFilesFollowsNlive(nDims: int, kwargs: map<string, Value>)
    requires Name(UpdateFiles) !in kwargs
    ensures Resolve(nDims, kwargs).updateFiles == Resolve(nDims, kwargs).nlive
    ensures Name(NLive) in kwargs ==> Resolve(nDims, kwargs).updateFiles == kwargs[Name(NLive)]
  {
  }

  /** `nlive=500` alone gives `update_files == 500`, whatever `nDims` is. */
  lemma Nlive500(nDims: int)
    ensures Resolve(nDims, map[Name(NLive) := IntV(500)]).updateFiles == IntV(500)
  {
  }

  /**
   * Without a `grade_frac` override the fractions are all `1.0`, one per
   * entry of the resolved `grade_dims`, overridden or not.
   */
  lemma GradeFracFollowsDims(nDims: int, kwargs: map<string, Value>)
    requires GradesTyped(kwargs)
    requires Name(GradeFrac) !in kwargs
    ensures |Resolve(nDims, kwargs).gradeFrac| == |Resolve(nDims, kwargs).gradeDims|
    ensures forall i :: 0 <= i < |Resolve(nDims, kwargs).gradeFrac| ==> Resolve(nDims, kwargs).gradeFrac[i] == 1.0
    ensures Name(GradeDims) in kwargs ==> Resolve(nDims, kwargs).gradeDims == kwargs[Name(GradeDims)].ints
    ensures Name(GradeDims) !in kwargs ==> Resolve(nDims, kwargs).gradeDims == [nDims]
  {
  }

  /**
   * What the pops leave once all 21 options are consumed is exactly the
   * unrecognised keywords, with their values.
   */
  lemma LeftoverIsUnknown(kwargs: map<string, Value>)
    ensures Remaining(kwargs, OptionCount) == Unexpected(kwargs)
  {
    ConsumedAll();
  }

  /** Some keyword is unrecognised exactly when the leftover map is non-empty. */
  lemma {:induction false} UnknownIffLeftover(kwargs: map<string, Value>)
    ensures (exists k :: k in kwargs && k !in Recognised) <==> Unexpected(kwargs) != map[]
  {
    if Unexpected(kwargs) != map[] {
      var k :| k in Unexpected(kwargs);
      assert k in kwargs && k !in Recognised;
    } else {
      forall k | k in kwargs
        ensures k in Recognised
      {
        assert k !in Unexpected(kwargs);
      }
    }
  }

  /**
   * Construction raises the TypeError for unexpected keywords exactly when
   * some keyword is unrecognised, whatever the grade options are, and it
   * reports all of the unrecognised keywords.
   */
  lemma UnknownKeywordRaisesTypeError(nDims: int, kwargs: map<string, Value>)
    requires GradesTyped(kwargs)
    ensures (Build(nDims, kwargs).Failure? && Build(nDims, kwargs).error.Raises() == TypeError)
        <==> exists k :: k in kwargs && k !in Recognised
    ensures Build(nDims, kwargs).Failure? && Build(nDims, kwargs).error.UnexpectedKwargs? ==>
      forall k :: k in Build(nDims, kwargs).error.leftover <==> k in kwargs && k !in Recognised
  {
    UnknownIffLeftover(kwargs);
  }

  /**
   * With every keyword recognised, a length mismatch is reported before a
   * bad sum, and a ValueError is raised exactly when a grade check fails.
   */
  lemma GradeChecksInOrder(nDims: int, kwargs: map<string, Value>)
    requires GradesTyped(kwargs)
    requires forall k :: k in kwargs ==> k in Recognised
    ensures var b := Resolve(nDims, kwargs);
      |b.gradeFrac| != |b.gradeDims| ==> Build(nDims, kwargs) == Failure(GradeLengthMismatch(|b.gradeFrac|, |b.gradeDims|))
    ensures var b := Resolve(nDims, kwargs);
      |b.gradeFrac| == |b.gradeDims| && Sum(b.gradeDims) != nDims ==> Build(nDims, kwargs) == Failure(GradeSumMismatch(b.gradeDims, nDims))
    ensures Build(nDims, kwargs).Failure? ==> Build(nDims, kwargs).error.Raises() == ValueError
  {
  }

  /**
   * Construction succeeds exactly when every keyword is recognised and the
   * resolved grades match in length and sum to `nDims`; what it builds is
   * the resolved bundle.
   */
  lemma SuccessIff(nDims: int, kwargs: map<string, Value>)
    requires GradesTyped(kwargs)
    ensures Build(nDims, kwargs).Success? <==>
      && (forall k :: k in kwargs ==> k in Recognised)
      && |Resolve(nDims, kwargs).gradeFrac| == |Resolve(nDims, kwargs).gradeDims|
      && Sum(Resolve(nDims, kwargs).gradeDims) == nDims
    ensures Build(nDims, kwargs).Success? ==> Build(nDims, kwargs).value == Resolve(nDims, kwargs)
  {
    UnknownIffLeftover(kwargs);
  }

  /** Without grade overrides, recognised keywords always construct. */
  lemma DefaultGradesSucceed(nDims: int, kwargs: map<string, Value>)
    requires Name(GradeDims) !in kwargs && Name(GradeFrac) !in kwargs
    requires forall k :: k in kwargs ==> k in Recognised
    ensures GradesTyped(kwargs)
    ensures Build(nDims, kwargs).Success?
  {
    UnknownIffLeftover(kwargs);
    assert Sum([nDims]) == nDims;
  }

  /** `nDims=5, grade_dims=[2,2]` raises the ValueError for a bad sum. */
  lemma BadSumExample()
    ensures Build(5, map[Name(GradeDims) := IntListV([2, 2])]) == Failure(GradeSumMismatch([2, 2], 5))
  {
  }

  /** `nDims=5, grade_dims=[3,2], grade_frac=[1.0]` raises the ValueError for a length mismatch. */
  lemma LengthMismatchExample()
    ensures Build(5, map[Name(GradeDims) := IntListV([3, 2]), Name(GradeFrac) := FloatListV([1.0])])
         == Failure(GradeLengthMismatch(1, 2))
  {
  }

  /** An unknown keyword `foo=1` raises a TypeError that reports it. */
  lemma UnknownKeywordExample(nDims: int)
    ensures Build(nDims, map["foo" := IntV(1)]) == Failure(UnexpectedKwargs(map["foo" := IntV(1)]))
    ensures Build(nDims, map["foo" := IntV(1)]).error.Raises() == TypeError
  {
    assert "foo" !in Recognised;
    assert Unexpected(map["foo" := IntV(1)]) == map["foo" := IntV(1)];
  }

  /**
   * An object constructed with `base_dir="out"` has the clusters directory
   * `out/clusters`.
   */
  lemma ClusterDirExample(nDims: int, s: PolyChordSettings)
    requires s.Fields() == Resolve(nDims, map[Name(BaseDir) := StrV("out")])
    ensures s.baseDir.StrV?
    ensures s.ClusterDir() == "out/clusters"
  {
  }
}
