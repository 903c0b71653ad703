# PolyChord settings, modelled in Dafny

`PyPolyChord/settings.py` defines `PolyChordSettings`, the bundle of run
parameters that PyPolyChord hands to the PolyChord nested-sampling engine.
Its constructor takes the dimensionality `nDims`, a count `nDerived` of
derived parameters, and keyword overrides. It does three things:

- It pops 21 recognised options out of the keyword dictionary one by one.
  Each option stores its override if there is one, and its default
  otherwise.
  - `nlive` defaults to `25*nDims` and `num_repeats` to `5*nDims`.
  - `update_files` defaults to the `nlive` just resolved.
  - `grade_dims` defaults to `[nDims]`.
  - `grade_frac` defaults to one `1.0` per entry of the `grade_dims` just
    resolved.
- It raises in this order:
  - a TypeError if any keyword is left over;
  - a ValueError if `grade_frac` and `grade_dims` differ in length;
  - a ValueError if `grade_dims` does not sum to `nDims`.
- Its `cluster_dir` property joins `base_dir` with `clusters`.

The project has four files:

- `wrappers.dfy`: `Option` and `Result`.
- `builtins.dfy`: the Python built-ins the constructor uses:
  - `sum`;
  - list repetition `[x] * n`;
  - `os.path.join`, as `posixpath.join` defines it for one component.
- `settings.dfy`: the keyword values, the option names in pop order, the
  errors, and two specification functions.
  - `Resolve` gives every option's resolved value.
  - `Build` gives the whole constructor's outcome.
  - The class `PolyChordSettings` has one field per option.
  - Its `Init` method pops a map variable step by step, as `__init__` does,
    and is proved against `Resolve` and `Build`.
  - `ClusterDir` models the `cluster_dir` property.
- `settings_facts.dfy`: what construction promises, proved about `Resolve`
  and `Build`.

An exception is modelled as a returned error. `Construct` models the call
`PolyChordSettings(nDims, nDerived, **kwargs)`: it allocates the object, runs
`Init`, and returns either the object or the error.

## Model

| member | source | states |
|---|---|---|
| PyBuiltins.Repeat | PyPolyChord/settings.py:138 | `[x] * n` has length `n` (0 when `n <= 0`), and every element is `x` |
| PyBuiltins.Join | PyPolyChord/settings.py:151 | the joined path ends with the second component. A relative component extends the first path; a separator is inserted only when the first path is non-empty and has no trailing separator. An absolute component replaces the first path |
| PyBuiltins.Sum | PyPolyChord/settings.py:146 | Python's `sum` of a list of ints: 0 for the empty list, otherwise the first element plus the sum of the rest |
| Settings.Resolve | PyPolyChord/settings.py:117-138 | the reference for default resolution. Each option is its override when given and its default otherwise; `update_files` defaults to the resolved `nlive`, and `grade_frac` to `1.0` repeated the length of the resolved `grade_dims` |
| Settings.Unexpected | PyPolyChord/settings.py:118-140 | the reference for what is left over: the overrides whose names are not among the 21 recognised ones, with their values |
| Settings.Build | PyPolyChord/settings.py:115-147 | the reference for the whole constructor. A TypeError carrying the leftover map when it is non-empty; else a ValueError when the grade lengths differ; else a ValueError when `grade_dims` does not sum to `nDims`; else the resolved bundle |
| Settings.PopOption | PyPolyChord/settings.py:118-138 | popping the option at position `n` from what is left after the earlier pops gives `kwargs.get(name, default)` of the original overrides, and leaves the overrides minus the first `n+1` names |
| Settings.PolyChordSettings.PopSamplingOptions | PyPolyChord/settings.py:117-124 | `nlive` through `boost_posterior` hold the override or the default (`25*nDims`, `5*nDims`, `True`, `1`, `0.001`, `-1`, `0.0`), and those seven names are removed |
| Settings.PolyChordSettings.PopOutputFlags | PyPolyChord/settings.py:125-133 | `posteriors` through `write_dead` hold the override or the default (all `True` except `write_paramnames`, which is `False`), and those names are removed |
| Settings.PolyChordSettings.PopFileOptions | PyPolyChord/settings.py:134-136 | `update_files` defaults to the `nlive` field already stored, `base_dir` to `chains` and `file_root` to `test` |
| Settings.PolyChordSettings.PopGradeOptions | PyPolyChord/settings.py:137-138 | `grade_dims` defaults to `[nDims]`, and `grade_frac` to `1.0` repeated `len` of the stored `grade_dims`. Afterwards only the unrecognised keywords are left |
| Settings.PolyChordSettings.PopTunables | PyPolyChord/settings.py:117-133 | each of the first 16 fields equals its resolved value |
| Settings.PolyChordSettings.PopPaths | PyPolyChord/settings.py:134-138 | given the resolved `nlive`, the last five fields equal their resolved values, and the map left over is exactly the unknown keywords |
| Settings.PolyChordSettings.PopOptions | PyPolyChord/settings.py:117-138 | after all the pops, the object's fields are the resolved bundle, and the map left over is exactly the unknown keywords |
| Settings.PolyChordSettings.Init | PyPolyChord/settings.py:115-147 | the fields are the resolved bundle. No error is raised exactly when `Build` succeeds with those fields; otherwise the error raised is the one `Build` gives |
| Settings.Construct | PyPolyChord/settings.py:115-147 | a fresh object whose fields are `Build`'s bundle when `Build` succeeds, and `Build`'s error otherwise |
| Settings.PolyChordSettings.ClusterDir | PyPolyChord/settings.py:149-151 | the path ends in `clusters` and starts with `base_dir`. For a non-empty `base_dir` without a trailing `/`, it is `base_dir + "/clusters"` |
| SettingsFacts.NoOverrides | PyPolyChord/settings.py:118-147 | with no overrides: `nlive = 25*nDims`, `num_repeats = 5*nDims`, `update_files = 25*nDims`, `base_dir = chains`, `file_root = test`, `grade_dims = [nDims]`, `grade_frac = [1.0]`, and construction succeeds |
| SettingsFacts.StoredOrDefault | PyPolyChord/settings.py:118-138 | every one of the 21 options holds the supplied value unchanged when given, and its default otherwise. Dependent defaults are read from the resolved bundle |
| SettingsFacts.UpdateFilesFollowsNlive | PyPolyChord/settings.py:118-134 | without an `update_files` override, `update_files` equals the resolved `nlive`, and so the `nlive` override when there is one |
| SettingsFacts.Nlive500 | PyPolyChord/settings.py:118-134 | `nlive=500` alone gives `update_files == 500` for every `nDims` |
| SettingsFacts.GradeFracFollowsDims | PyPolyChord/settings.py:137-138 | without a `grade_frac` override, `grade_frac` is all `1.0` and as long as the resolved `grade_dims`. That list is the override if given, else `[nDims]` |
| SettingsFacts.LeftoverIsUnknown | PyPolyChord/settings.py:118-140 | the map the 21 pops leave, with every recognised name removed in turn, is exactly `Unexpected`: the unrecognised keywords with their values |
| SettingsFacts.UnknownIffLeftover | PyPolyChord/settings.py:140 | some keyword is unrecognised if and only if the leftover map is non-empty |
| SettingsFacts.UnknownKeywordRaisesTypeError | PyPolyChord/settings.py:140-141 | construction raises TypeError if and only if some keyword is unrecognised, whatever the grade options are. The error reports every unrecognised keyword |
| SettingsFacts.GradeChecksInOrder | PyPolyChord/settings.py:143-147 | with every keyword recognised, a length mismatch is reported even when the sum is also wrong. A bad sum is reported when the lengths agree. Every failure is a ValueError |
| SettingsFacts.SuccessIff | PyPolyChord/settings.py:140-147 | construction succeeds if and only if every keyword is recognised, `len(grade_frac) == len(grade_dims)` and `sum(grade_dims) == nDims`. On success the bundle is the resolved one |
| SettingsFacts.DefaultGradesSucceed | PyPolyChord/settings.py:137-147 | with no grade overrides and no unknown keywords, construction always succeeds |
| SettingsFacts.BadSumExample | PyPolyChord/settings.py:146-147 | `nDims=5, grade_dims=[2,2]` fails with the bad-sum ValueError |
| SettingsFacts.LengthMismatchExample | PyPolyChord/settings.py:143-144 | `nDims=5, grade_dims=[3,2], grade_frac=[1.0]` fails with the length ValueError |
| SettingsFacts.UnknownKeywordExample | PyPolyChord/settings.py:140-141 | `foo=1` fails with a TypeError that reports `foo` |
| SettingsFacts.ClusterDirExample | PyPolyChord/settings.py:118-151 | an object whose fields are those resolved from `base_dir="out"` has a string `base_dir` and the clusters directory `out/clusters` |

## Left out

- Python's dynamic typing: a keyword value is one of six kinds (int, bool,
  float, str, list of ints, list of floats). Options are stored whatever
  their kind, as the source stores them.
  - `Init`, `Construct` and `Build` require `GradesTyped`: a `grade_dims`
    override is a list of ints and a `grade_frac` override a list of floats.
    Python accepts more than that, and the model does not cover it:
    - `grade_frac` is only measured with `len`, so any sized value of the
      right length is stored, such as a list of ints or a string.
    - `grade_dims` may be anything `len` and `sum` accept, such as a list of
      floats (`[2.5, 2.5]` sums to `5.0`, which equals `5`) or an empty
      string when `nDims` is 0.
    - The TypeError Python raises for a value that `len` or `sum` rejects is
      not modelled either.
  - Settings.PolyChordSettings.ClusterDir requires `base_dir` to be a
    string. `os.path.join` raises on anything else, and that error is not
    modelled.
- Floats (`precision_criterion`, `boost_posterior`, the `grade_frac`
  entries) are modelled as `real`; nothing computes with them.
- PyBuiltins.Join models only the POSIX `posixpath.join` for one component.
  The Windows separator and drive rules of `ntpath` are not modelled.
- `nDerived` is accepted and, as in the source, never used.
- The exception messages are not modelled, only which exception is raised.
  - `UnexpectedKwargs` carries the leftover keywords that the TypeError's
    message shows.
  - `GradeSumMismatch` carries the `grade_dims` and `nDims` that the
    bad-sum message shows.
  - The length message shows no data. `GradeLengthMismatch` carries the two
    lengths anyway, to record which check failed.
- The docstring gives `1` as the default of `grade_frac` and `grade_dims`
  (PyPolyChord/settings.py:107-113). The code's defaults at lines 137-138
  are modelled instead: `[nDims]`, and `1.0` repeated `len(grade_dims)`.
- `__init__` is one method in the source. The model splits its pops into
  the group methods above, in the same order, and `Init` runs them and then
  the three checks.
- The engine itself and the file output that these settings configure are
  not part of this model.
