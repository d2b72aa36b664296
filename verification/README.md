# DataLoader placement and script synthesis for the experimental Vertex model packaging

This Dafny project models two pieces of the experimental `vertex_model` packaging code of the
Vertex AI Python SDK.

- **DataLoader placement** (`serializers/pytorch.py`). `_serialize_dataloader` reads the dataset's
  `root` and picks one of three strategies:
  - remote origin;
  - local origin with a local target;
  - local origin with a `gs://` target.

  Each strategy derives the artifact location and, where needed, the blob that receives the origin
  data file. `_deserialize_dataloader` makes the inverse local/`gs://` decision and wraps load
  failures.

  The model is `PyTorchSerializer`. A serialize is a pure function to a `Plan`: the strategy taken,
  the returned pair `(artifact location, origin location)`, and the effects in order (`torch.save`,
  save-and-copy to storage, blob upload). `Perform` runs those effects against a failure oracle. A
  deserialize runs against a map from local paths to stored objects and a download oracle. It
  records the entry to and exit from the temporary directory as events.
- **Script synthesis** (`utils/source_utils.py`). `SourceMaker` and `_make_class_source` rebuild a
  class's text from a header line and its methods' source. `_make_source` builds the text of a script
  from four parts:
  - a fixed import preamble;
  - the class text;
  - a `__main__` guard;
  - one method call whose arguments are keyword fragments.

  The model is `SourceUtils`. Reflection is replaced by an explicit list of members `(name, kind,
  source)`. `inspect.getmembers` sorts members by name; the model accepts the list in any order.
  As written, `_make_source` raises at line 81 (see Findings). `MakeSource` models the text the
  function evidently means to build. Each location is inserted into the call text as given,
  without quotes (line 99).

Support modules:
- `Wrappers`: `Option` and `Result`.
- `PyErrors`: the Python exception kinds the code raises or passes through.
- `Text`: Python's `str.split`, `str.join` and `in` for strings, the concatenation of a list, and
  the last path segment, with their round-trip lemmas.

Behaviour worth knowing, as the code has it:
- The code renders element `[0]` of the mapping entry for a type as the deserializer's name.
- Only the `gs://` path wraps load errors; a local `torch.load` error propagates unwrapped
  (`DeserializeDataLoader`).
- On the `gs://` path, a `ValueError` or `RuntimeError` from the download is wrapped as well as one
  from the load, because both sit in the same `try` block. Subclasses of either are wrapped too.
- On the `gs://` path, the storage client is built before the `try`. An error there propagates
  unwrapped, and no temporary directory is created.
- With a `gs://` target, an empty-string origin counts as falsy, so the returned origin is `None`.
  With a local target, the origin comes back exactly as given, `""` included (`OriginPresence`).

## Model

| member | source | states |
|---|---|---|
| PyTorchSerializer.PathName | google/cloud/aiplatform/experimental/vertex_model/serializers/pytorch.py:110-111 | `Path(p).name` holds no `/`. It is a suffix of `p` with trailing slashes dropped, and is either all of that or follows a `/`. |
| PyTorchSerializer.PathNameAfterSlash | google/cloud/aiplatform/experimental/vertex_model/serializers/pytorch.py:110-111 | The name of `dir/name` is `name`, for any non-empty `name` without `/`. |
| PyTorchSerializer.PathNameTrailingSlash | google/cloud/aiplatform/experimental/vertex_model/serializers/pytorch.py:110-111 | A trailing `/` does not change the name. |
| PyTorchSerializer.DataBlobPath | google/cloud/aiplatform/experimental/vertex_model/serializers/pytorch.py:111-114 | The data blob path ends with `<role>_<basename>`. With a truthy prefix it is `<prefix>/` followed by that and nothing more; otherwise it is exactly `<role>_<basename>`. |
| PyTorchSerializer.SerializeRemote | google/cloud/aiplatform/experimental/vertex_model/serializers/pytorch.py:39-76 | The origin comes back untouched. The one effect saves `my_<role>_dataloader.pth` and copies it to the bucket and prefix the target splits into. The artifact location is what that copy returns. |
| PyTorchSerializer.SerializeLocal | google/cloud/aiplatform/experimental/vertex_model/serializers/pytorch.py:79-138 | A target outside `gs://` gets one `torch.save` to `target + my_<role>_dataloader.pth`, and the origin comes back as given. A `gs://` target ends with the artifact's save-and-copy and returns the copy's location. One upload of the origin file comes first exactly when the origin is truthy. The returned origin is then a `gs://` location; otherwise it is `None`. |
| PyTorchSerializer.SerializeDataLoader | google/cloud/aiplatform/experimental/vertex_model/serializers/pytorch.py:157-164 | The remote-origin strategy is taken exactly when `root` is truthy and starts with `gs://`. Local-to-local is taken exactly when it is not and the target is not `gs://`. Every strategy ends with an effect that saves the DataLoader under the role-tagged file name, and every earlier effect is a blob upload. An upload happens only on the local-origin, `gs://`-target strategy with a truthy root. Outside local-to-local, a returned origin is a `gs://` location. |
| PyTorchSerializer.RemoteOriginPlan | google/cloud/aiplatform/experimental/vertex_model/serializers/pytorch.py:64-76 | Remote origin: the origin is returned unchanged. The only effect is one save-and-copy of `my_<role>_dataloader.pth` to the bucket and prefix split from the target. The artifact location is what that copy returns. |
| PyTorchSerializer.LocalTargetStaysLocal | google/cloud/aiplatform/experimental/vertex_model/serializers/pytorch.py:100-101 | Appending the artifact file name to a target that does not start with `gs://` cannot produce one that does. |
| PyTorchSerializer.LocalTargetPlan | google/cloud/aiplatform/experimental/vertex_model/serializers/pytorch.py:100-103 | Local origin, local target: the artifact path is `artifact_uri + "my_" + role + "_dataloader.pth"` with no separator inserted. The origin comes back unchanged. The only effect is one `torch.save` to that path, so nothing is uploaded. The path is not a `gs://` location. |
| PyTorchSerializer.GcsTargetWithOriginPlan | google/cloud/aiplatform/experimental/vertex_model/serializers/pytorch.py:105-136 | Local origin, `gs://` target, truthy origin: the data blob is `<role>_<basename>`, under `<prefix>/` when the prefix is truthy. It is uploaded from the origin file before the artifact is saved. The returned origin is `gs://<bucket>/<blob path>`, a `gs://` location. For every role without `/`, its last segment is `<role>_<basename>`. |
| PyTorchSerializer.DataBlobLastSegment | google/cloud/aiplatform/experimental/vertex_model/serializers/pytorch.py:110-114 | For a role without `/`, whatever the prefix, the last `/`-segment of the data blob path is `<role>_<basename>`. |
| PyTorchSerializer.GcsTargetWithoutOriginPlan | google/cloud/aiplatform/experimental/vertex_model/serializers/pytorch.py:128-136 | Local origin, `gs://` target, origin `None` or `""`: the returned origin is `None` and the only effect is the artifact's save-and-copy. |
| PyTorchSerializer.OriginPresence | google/cloud/aiplatform/experimental/vertex_model/serializers/pytorch.py:76-138 | Local-to-local returns `root` as given. The other strategies return an origin exactly when `root` is truthy. |
| PyTorchSerializer.ExampleFileName | google/cloud/aiplatform/experimental/vertex_model/serializers/pytorch.py:110-111 | The basename of `/data/train.csv` is `train.csv`. |
| PyTorchSerializer.ExampleBlobPath | google/cloud/aiplatform/experimental/vertex_model/serializers/pytorch.py:111-127 | With bucket `bkt`, prefix `out` and role `training`, the origin `/data/train.csv` becomes `gs://bkt/out/training_train.csv`. |
| PyTorchSerializer.TrainingExample | google/cloud/aiplatform/experimental/vertex_model/serializers/pytorch.py:157-164 | Serializing to `gs://bkt/out/` (split as `bkt`, `out`) with root `/data/train.csv` and role `training` returns origin `gs://bkt/out/training_train.csv`. |
| PyTorchSerializer.Perform | google/cloud/aiplatform/experimental/vertex_model/serializers/pytorch.py:116-136 | Effects are attempted in order, once each. The attempted ones are a prefix of the plan. Without an error that prefix is the whole plan and every effect succeeded. An error is the one the last attempted effect raised, and every earlier effect succeeded. |
| PyTorchSerializer.SerializeDataLoaderRun | google/cloud/aiplatform/experimental/vertex_model/serializers/pytorch.py:141-164 | A serialize returns the plan's pair exactly when every effect succeeds, having attempted them all. Otherwise it raises the failing effect's error unchanged. |
| PyTorchSerializer.TorchLoad | google/cloud/aiplatform/experimental/vertex_model/serializers/pytorch.py:178 | `torch.load(path)` succeeds exactly when the file exists and holds a saved object, and then returns that object. A file it cannot read raises the file's error. A missing file raises `FileNotFoundError` naming the path. |
| PyTorchSerializer.WrapLoadError | google/cloud/aiplatform/experimental/vertex_model/serializers/pytorch.py:200-205 | An instance of `ValueError` or `RuntimeError`, subclasses included, becomes a `RuntimeError`. Its message contains the quoted location and ends with the original message. Any other error is unchanged. |
| PyTorchSerializer.DeserializeDataLoader | google/cloud/aiplatform/experimental/vertex_model/serializers/pytorch.py:167-208 | A location that does not start with `gs://` is only loaded in place, with no download, and its errors are unwrapped. For a `gs://` location, a failure to build the storage client is raised unwrapped, before any temporary directory exists. Otherwise the temporary directory is entered first and left last, on every path, with no other entry or exit in between. |
| PyTorchSerializer.RemoteLoadOutcome | google/cloud/aiplatform/experimental/vertex_model/serializers/pytorch.py:181-208 | Once the storage client is built, a `gs://` deserialize returns the downloaded object exactly when the download and the load both succeed. An instance of `ValueError`/`RuntimeError` from either, subclasses included, is re-raised as a `RuntimeError` naming the location. Other errors pass through unchanged. The temporary directory is left last. |
| PyTorchSerializer.LocalRoundTrip | google/cloud/aiplatform/experimental/vertex_model/serializers/pytorch.py:100-103 | For a local origin and a local target, loading the returned artifact location after the serialize's saves gives back the saved DataLoader. |
| PyTorchSerializer.LastCopyWins | google/cloud/aiplatform/experimental/vertex_model/serializers/pytorch.py:116-136 | When the last effect is the save-and-copy, the blob it writes holds the DataLoader after all the effects, whatever the earlier uploads wrote. |
| PyTorchSerializer.GcsRoundTrip | google/cloud/aiplatform/experimental/vertex_model/serializers/pytorch.py:181-198 | On the strategies that copy to object storage, the plan's effects are applied to the store. Deserializing the returned artifact location then gives back the saved DataLoader, unless building the storage client fails. This holds whatever the store, the local files and the uploaded file held. It assumes the copy helper returns a `gs://` location that splits into the bucket and blob it wrote. |
| SourceUtils.NewSourceMaker | google/cloud/aiplatform/experimental/vertex_model/utils/source_utils.py:23-24 | A fresh maker holds one line, and it joins to `class <Name>:`. |
| SourceUtils.AddMethod | google/cloud/aiplatform/experimental/vertex_model/utils/source_utils.py:26-27 | `add_method(s)` keeps the existing lines untouched. It grows the list by the number of `\n` in `s` plus one, with new lines free of `\n`. The joined text grows by `\n` followed by `s`. |
| Text.JoinSplit | google/cloud/aiplatform/experimental/vertex_model/utils/source_utils.py:27-43 | `"\n".join(s.split("\n")) == s` for every `s`. |
| Text.SplitJoin | google/cloud/aiplatform/experimental/vertex_model/utils/source_utils.py:27 | Splitting the join of a non-empty list of separator-free pieces (empty pieces included) returns those pieces, so the split is the only such decomposition. |
| Text.SplitCount | google/cloud/aiplatform/experimental/vertex_model/utils/source_utils.py:27 | A split yields one more piece than there are separators. |
| SourceUtils.ClassBodySnoc | google/cloud/aiplatform/experimental/vertex_model/utils/source_utils.py:39-41 | One more member appends exactly that member's contribution to the class text. |
| SourceUtils.AddMethodExtends | google/cloud/aiplatform/experimental/vertex_model/utils/source_utils.py:41 | Adding a method to lines that join to some text makes them join to that text, `\n` and the method. |
| SourceUtils.ClassSourceStep | google/cloud/aiplatform/experimental/vertex_model/utils/source_utils.py:39-41 | One loop iteration keeps the joined lines equal to the header and the text of the members seen so far. |
| SourceUtils.MakeClassSource | google/cloud/aiplatform/experimental/vertex_model/utils/source_utils.py:30-43 | The result is `class <Name>:` followed by `"\n" + source` for each method or function, in the order of the member list. |
| SourceUtils.NonCallableContributesNothing | google/cloud/aiplatform/experimental/vertex_model/utils/source_utils.py:39-41 | Removing a member that is neither a method nor a function leaves the class text unchanged. |
| SourceUtils.ContributedSourceAppears | google/cloud/aiplatform/experimental/vertex_model/utils/source_utils.py:39-43 | Every method's or function's source occurs in the class text right after a line break. |
| SourceUtils.ClassBodyEndsLine | google/cloud/aiplatform/experimental/vertex_model/utils/source_utils.py:41-43 | When the last member is a method whose source ends with a line break, so does the class text. |
| SourceUtils.CallFragments | google/cloud/aiplatform/experimental/vertex_model/utils/source_utils.py:91-102 | The call holds one fragment `name=<deserializer>(uri), ` per serialized parameter, in order. The deserializer is element `[0]` of the mapping entry for the parameter's type. Then comes one fragment `name=value, ` per pass-through parameter, in order. |
| SourceUtils.SerializedSnoc | google/cloud/aiplatform/experimental/vertex_model/utils/source_utils.py:91-99 | One more serialized parameter appends its fragment at the end of the call text. |
| SourceUtils.PassThroughSnoc | google/cloud/aiplatform/experimental/vertex_model/utils/source_utils.py:101-102 | One more pass-through parameter appends its fragment at the end of the call text. |
| PyErrors.MissingKey | google/cloud/aiplatform/experimental/vertex_model/utils/source_utils.py:95 | The `KeyError` for a missing type key renders as the key's `repr`: the key between two equal quote characters, double quotes exactly when the key holds a single quote and no double quote, single quotes otherwise. |
| PyErrors.MissingKeyExamples | google/cloud/aiplatform/experimental/vertex_model/utils/source_utils.py:95 | A missing key `df` renders as `'df'`, and `it's` as `"it's"`. |
| SourceUtils.RenderSerialized | google/cloud/aiplatform/experimental/vertex_model/utils/source_utils.py:91-99 | The serialized loop fails exactly when some type key is missing from the mapping. It fails with a `KeyError` for the first such parameter, whose message is the quoted key (`MissingKey`). Otherwise it yields every serialized fragment in order. |
| SourceUtils.RenderPassThrough | google/cloud/aiplatform/experimental/vertex_model/utils/source_utils.py:101-102 | Continuing from the serialized fragments, the pass-through loop appends every pass-through fragment, in order. |
| SourceUtils.MakeSource | google/cloud/aiplatform/experimental/vertex_model/utils/source_utils.py:67-106 | Fails exactly when a serialized parameter's type is not in the mapping, with a `KeyError` for the first one, whose message is the quoted key. Otherwise returns `ScriptText`, which is a function of the inputs alone. |
| SourceUtils.PreambleText | google/cloud/aiplatform/experimental/vertex_model/utils/source_utils.py:67-75 | The preamble is the four import lines and the class text, each separated by one `\n`. |
| SourceUtils.ScriptParts | google/cloud/aiplatform/experimental/vertex_model/utils/source_utils.py:67-104 | The script starts with the joined preamble. The `__main__` guard follows it at once. The script ends with `)\n`. |
| SourceUtils.ScriptLayout | google/cloud/aiplatform/experimental/vertex_model/utils/source_utils.py:67-104 | The script opens with the four import lines, the class text and then the guard, with no separator before the guard. It closes with `)\n`. |
| SourceUtils.GuardStartsLine | google/cloud/aiplatform/experimental/vertex_model/utils/source_utils.py:67-78 | When the class text ends with a line break, the guard starts a line of its own. |
| SourceUtils.ArgsUndefined | google/cloud/aiplatform/experimental/vertex_model/utils/source_utils.py:81 | At line 81 `args` is neither a name local to the function nor a module global, so its lookup raises `NameError: name 'args' is not defined`. |
| SourceUtils.GuardedPreamblePrefix | google/cloud/aiplatform/experimental/vertex_model/utils/source_utils.py:67-78 | The preamble followed by the guard is a proper prefix of the script. |
| SourceUtils.MakeSourceAsWritten | google/cloud/aiplatform/experimental/vertex_model/utils/source_utils.py:67-81 | As written, up to line 81: `src` holds the four import lines, the class text and the guard, each import line followed by one `\n`. The lookup of `args`, then `kwargs`, at line 81 can only raise a `NameError` or a subclass of it (`UnboundLocalError`). |
| SourceUtils.MakeSourceAsWrittenAlwaysRaises | google/cloud/aiplatform/experimental/vertex_model/utils/source_utils.py:67-85 | As written, every call raises `NameError` for `args` at line 81. At that point `src` holds only the preamble and the guard, a proper prefix of the script the corrected code builds. No construction line and no call text exist yet. |

## Left out

- `torch.save`, `torch.load` and the DataLoader object:
  - the DataLoader is an abstract value;
  - saves are effect records;
  - a load reads a map from paths to stored objects or to an error.
- `storage.Client`, credentials and `initializer.global_config`:
  - uploads are effect records;
  - downloads come from an oracle that may fail;
  - a failure to build the client is an input error.
- `utils.extract_bucket_and_prefix_from_gcs_path` and `serializer_utils.serialize_to_tmp_and_copy_to_gcs` are not part of this model. Both are given functions (`Collaborators`), so the artifact location on the `gs://` strategies is opaque.
- PyTorchSerializer.GcsRoundTrip: the copy helper is opaque. The lemma assumes that the helper's returned location is `gs://` and splits into the bucket and blob it wrote (`copyDestination`).
- `utils.extract_bucket_and_prefix_from_gcs_path` is taken to be total: an error it might raise before the `try` is not modelled.
- Failures of the serialize's effects come from an oracle. Retries and partial writes inside one effect are not modelled.
- `tempfile.TemporaryDirectory` is represented by the directory name as a parameter and by entry/exit events. File-system cleanup itself is not modelled.
- PyTorchSerializer.PathName: `pathlib.Path(p).name` is the segment after the last `/` once trailing slashes are dropped. `.` components and other normalisation by `pathlib` are not modelled. `str(Path(p))` is taken to be `p` for the uploaded file name.
- The remote-origin strategy writes to object storage even when the target is a local path (the code marks this as a TODO). The model does the same and does not invent a local write.
- `inspect.getmembers`, `inspect.getsource`, `ismethod` and `isfunction` are replaced by a list of members with their kind and source text. Any order is accepted, which includes the name order `getmembers` uses.
- SourceUtils.MakeSource: the constructor arguments are rendered texts given as inputs (`ctorArgs`, `ctorKwargs`), because the code that computes them cannot run (see Findings). Pass-through values are their `str()` renderings, given as strings. A deserializer is its `__name__`.
- Python `dict` iteration order is the order of the input sequences.
- PyErrors.MissingKey: `repr` of a key is modelled only as its choice of quote character. Backslash escapes (of `\`, of a quote when the key holds both kinds, of control and non-printable characters) are not modelled.
- SourceUtils.ArgsUndefined: Python's builtins are not listed among the names line 81 can see. Neither `args` nor `kwargs` is a builtin.
- Exceptions the constructor's signature binding would raise after line 81 are not modelled; the run never gets there.

## Findings

| source | as written | input that shows it | evidently intended | confidence | as-written member | corrected member |
|---|---|---|---|---|---|---|
| google/cloud/aiplatform/experimental/vertex_model/utils/source_utils.py:81-85 | binds the constructor's signature with `*args, **kwargs`, names that are neither parameters nor module globals | any call, e.g. an empty class source, no parameters and an empty mapping | render the instance's constructor arguments and continue with the call text | high, not executed | SourceUtils.MakeSourceAsWrittenAlwaysRaises | SourceUtils.MakeSource |
