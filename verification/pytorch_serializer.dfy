/**
 * Placement of a PyTorch DataLoader artifact and of the data file it was read from, and the
 * inverse load, with every save, upload and download written out as an effect or an oracle.
 */
module PyTorchSerializer {
  import opened Wrappers
  import opened PyErrors
  import opened Text

  /** The scheme that marks an object-storage location; the only test for remoteness. */
  const GcsScheme: string := "gs://"

  /** The file name of the temporary file a remote deserialize downloads into. */
  const DownloadedFileName: string := "deserialized_dataloader.pth"

  predicate IsGcsUri(s: string) {
    GcsScheme <= s
  }

  /** Python truthiness of an optional string: neither `None` nor `""`. */
  predicate Truthy(s: Option<string>) {
    s.Some? && s.value != ""
  }

  /** The file name every branch gives the saved DataLoader, tagged with the dataset's role. */
  function ArtifactFileName(datasetType: string): string {
    "my_" + datasetType + "_dataloader.pth"
  }

  /**
   * `pathlib.Path(p).name`: the last segment once trailing slashes are dropped. It is a suffix of
   * the stripped path, holds no `/`, and is either the whole stripped path or follows a `/`.
   */
  function PathName(p: string): (r: string)
    ensures '/' !in r
    ensures var q := StripTrailing(p, '/');
            && |r| <= |q| && r == q[|q| - |r|..]
            && (|r| == |q| || q[|q| - |r| - 1] == '/')
  {
    AfterLast(StripTrailing(p, '/'), '/')
  }

  /** The name of `dir/name` is `name`, for a non-empty `name` without `/`. */
  lemma PathNameAfterSlash(dir: string, name: string)
    requires '/' !in name && name != ""
    ensures PathName(dir + "/" + name) == name
  {
    var p := dir + "/" + name;
    assert p[|p| - 1] == name[|name| - 1];
    assert StripTrailing(p, '/') == p;
    assert p == dir + ['/'] + name;
    AfterLastJoin(dir, name, '/');
  }

  /** A trailing slash does not change the name. */
  lemma PathNameTrailingSlash(p: string)
    ensures PathName(p + "/") == PathName(p)
  {
    assert (p + "/")[..|p|] == p;
  }

  /** What the storage-path splitter returns: the bucket and the (possibly absent) blob prefix. */
  datatype GcsSplit = GcsSplit(bucket: string, prefix: Option<string>)

  /** Collaborators whose code is not part of this model, taken as given functions. */
  datatype Collaborators = Collaborators(
    // utils.extract_bucket_and_prefix_from_gcs_path
    splitGcsPath: string -> GcsSplit,
    // the path serializer_utils.serialize_to_tmp_and_copy_to_gcs returns for (file name, bucket, prefix)
    copiedPath: (string, string, Option<string>) -> string,
    // the (bucket, blob) that serializer_utils.serialize_to_tmp_and_copy_to_gcs writes for the same inputs
    copyDestination: (string, string, Option<string>) -> (string, Option<string>))

  /** The side effects of a serialize, in the order the code performs them. */
  datatype Effect =
    | TorchSave(path: string)                                                 // torch.save(obj, path)
    | SaveTmpAndCopyToGcs(fileName: string, bucket: string, prefix: Option<string>)
    | UploadFile(bucket: string, blobName: string, localFile: string)        // blob.upload_from_filename

  /** Which of the three serialize strategies ran. */
  datatype Branch = RemoteOrigin | LocalOriginLocalTarget | LocalOriginGcsTarget

  /**
   * The result of a serialize: the strategy, the returned pair (artifact location, origin
   * location) and the effects it performs.
   */
  datatype Plan = Plan(branch: Branch, artifact: string, origin: Option<string>, effects: seq<Effect>)

  /** `e` writes the DataLoader itself under the name tagged with `datasetType`. */
  predicate SavesArtifact(e: Effect, datasetType: string) {
    match e
    case TorchSave(path) =>
      var name := ArtifactFileName(datasetType);
      |name| <= |path| && path[|path| - |name|..] == name
    case SaveTmpAndCopyToGcs(name, _, _) => name == ArtifactFileName(datasetType)
    case UploadFile(_, _, _) => false
  }

  /** The save-and-copy of the artifact to the bucket and prefix the target splits into. */
  function ArtifactCopy(artifactUri: string, datasetType: string, c: Collaborators): (e: Effect)
    ensures e.SaveTmpAndCopyToGcs? && SavesArtifact(e, datasetType)
  {
    var split := c.splitGcsPath(artifactUri);
    SaveTmpAndCopyToGcs(ArtifactFileName(datasetType), split.bucket, split.prefix)
  }

  /**
   * `_serialize_remote_dataloader`: the origin data already lives in object storage, so the
   * origin is handed back untouched; the one effect saves the DataLoader and copies it to the
   * target's bucket and prefix, and the artifact location is what that copy reports.
   */
  function SerializeRemote(artifactUri: string, dataloaderPath: Option<string>, datasetType: string,
                           c: Collaborators): (p: Plan)
    ensures p.branch == RemoteOrigin && p.origin == dataloaderPath
    ensures p.effects == [ArtifactCopy(artifactUri, datasetType, c)]
    ensures var e := p.effects[0]; p.artifact == c.copiedPath(e.fileName, e.bucket, e.prefix)
  {
    var GcsSplit(bucket, prefix) := c.splitGcsPath(artifactUri);
    var name := ArtifactFileName(datasetType);
    Plan(RemoteOrigin, c.copiedPath(name, bucket, prefix), dataloaderPath,
         [SaveTmpAndCopyToGcs(name, bucket, prefix)])
  }

  /**
   * The blob the origin data file is uploaded to: role tag, `_`, file name, under a truthy prefix.
   * It always ends with `<role>_<file name>`; with a truthy prefix it starts with `<prefix>/` and
   * holds nothing else.
   */
  function DataBlobPath(prefix: Option<string>, datasetType: string, dataloaderPath: string): (r: string)
    ensures var blob := datasetType + "_" + PathName(dataloaderPath);
            && |blob| <= |r| && r[|r| - |blob|..] == blob
            && (Truthy(prefix) ==> prefix.value + "/" <= r && |r| == |prefix.value| + 1 + |blob|)
            && (!Truthy(prefix) ==> r == blob)
  {
    var blob := datasetType + "_" + PathName(dataloaderPath);
    if Truthy(prefix) then prefix.value + "/" + blob else blob
  }

  /**
   * `_serialize_local_dataloader`: the origin data (if any) is a local file. A target outside
   * object storage gets a plain `torch.save` to the target with the file name appended, and the
   * origin comes back as given. A `gs://` target ends with the artifact's save-and-copy, preceded
   * by one upload of the origin file exactly when the origin is truthy; the returned origin is
   * then a `gs://` location, and absent otherwise.
   */
  function SerializeLocal(artifactUri: string, dataloaderPath: Option<string>, datasetType: string,
                          c: Collaborators): (p: Plan)
    ensures p.branch == (if IsGcsUri(artifactUri) then LocalOriginGcsTarget else LocalOriginLocalTarget)
    ensures !IsGcsUri(artifactUri) ==>
              && p.artifact == artifactUri + ArtifactFileName(datasetType)
              && p.origin == dataloaderPath
              && p.effects == [TorchSave(p.artifact)]
    ensures IsGcsUri(artifactUri) ==>
              var e := ArtifactCopy(artifactUri, datasetType, c);
              && p.artifact == c.copiedPath(e.fileName, e.bucket, e.prefix)
              && |p.effects| == (if Truthy(dataloaderPath) then 2 else 1)
              && p.effects[|p.effects| - 1] == e
              && (Truthy(dataloaderPath) ==> p.effects[0].UploadFile? && p.effects[0].localFile == dataloaderPath.value)
              && (p.origin.Some? <==> Truthy(dataloaderPath))
              && (p.origin.Some? ==> IsGcsUri(p.origin.value))
  {
    var name := ArtifactFileName(datasetType);
    if !IsGcsUri(artifactUri) then
      var localPath := artifactUri + name;
      Plan(LocalOriginLocalTarget, localPath, dataloaderPath, [TorchSave(localPath)])
    else
      var GcsSplit(bucket, prefix) := c.splitGcsPath(artifactUri);
      var save := SaveTmpAndCopyToGcs(name, bucket, prefix);
      var artifact := c.copiedPath(name, bucket, prefix);
      if Truthy(dataloaderPath) then
        var blobPath := DataBlobPath(prefix, datasetType, dataloaderPath.value);
        Plan(LocalOriginGcsTarget, artifact, Some(GcsScheme + bucket + "/" + blobPath),
             [UploadFile(bucket, blobPath, dataloaderPath.value), save])
      else
        Plan(LocalOriginGcsTarget, artifact, None, [save])
  }

  /**
   * `_serialize_dataloader`: `root` is the dataset's `root` attribute (`None` when missing).
   * The remote-origin strategy runs exactly when `root` is truthy and names object storage;
   * every strategy ends by saving the DataLoader under its role-tagged name, and only the
   * local-origin, object-storage-target strategy uploads anything else.
   */
  function SerializeDataLoader(artifactUri: string, root: Option<string>, datasetType: string,
                               c: Collaborators): (p: Plan)
    ensures p.branch == RemoteOrigin <==> Truthy(root) && IsGcsUri(root.value)
    ensures p.branch == LocalOriginLocalTarget <==> !(Truthy(root) && IsGcsUri(root.value)) && !IsGcsUri(artifactUri)
    ensures |p.effects| >= 1 && SavesArtifact(p.effects[|p.effects| - 1], datasetType)
    ensures forall i :: 0 <= i < |p.effects| - 1 ==> p.effects[i].UploadFile?
    ensures (exists i :: 0 <= i < |p.effects| && p.effects[i].UploadFile?) ==>
              p.branch == LocalOriginGcsTarget && Truthy(root)
    ensures p.branch != LocalOriginLocalTarget && p.origin.Some? ==> IsGcsUri(p.origin.value)
  {
    if Truthy(root) && IsGcsUri(root.value) then
      SerializeRemote(artifactUri, root, datasetType, c)
    else
      SerializeLocal(artifactUri, root, datasetType, c)
  }

  /** A target that does not name object storage yields a save path that does not either. */
  lemma LocalTargetStaysLocal(artifactUri: string, datasetType: string)
    requires !IsGcsUri(artifactUri)
    ensures !IsGcsUri(artifactUri + ArtifactFileName(datasetType))
  {
    var s := artifactUri + ArtifactFileName(datasetType);
    var k := |artifactUri|;
    if k < |GcsScheme| {
      // the scheme would have to continue with 'm', the first letter of the file name
      assert s[k] == 'm' && GcsScheme[k] != 'm';
    } else {
      assert s[..|GcsScheme|] == artifactUri[..|GcsScheme|];
    }
  }

  /** Remote origin: the origin is returned untouched and the only effect saves and uploads the artifact. */
  lemma RemoteOriginPlan(artifactUri: string, root: Option<string>, datasetType: string, c: Collaborators)
    requires Truthy(root) && IsGcsUri(root.value)
    ensures var p := SerializeDataLoader(artifactUri, root, datasetType, c);
            var split := c.splitGcsPath(artifactUri);
            && p.origin == root
            && p.effects == [SaveTmpAndCopyToGcs(ArtifactFileName(datasetType), split.bucket, split.prefix)]
            && p.artifact == c.copiedPath(ArtifactFileName(datasetType), split.bucket, split.prefix)
  {
  }

  /**
   * Local origin, local target: the artifact path is the target with the role-tagged file name
   * appended (no separator), the origin comes back unchanged, nothing is uploaded, and the
   * artifact path does not name object storage.
   */
  lemma LocalTargetPlan(artifactUri: string, root: Option<string>, datasetType: string, c: Collaborators)
    requires !(Truthy(root) && IsGcsUri(root.value))
    requires !IsGcsUri(artifactUri)
    ensures var p := SerializeDataLoader(artifactUri, root, datasetType, c);
            && p.artifact == artifactUri + "my_" + datasetType + "_dataloader.pth"
            && p.origin == root
            && p.effects == [TorchSave(p.artifact)]
            && !IsGcsUri(p.artifact)
  {
    LocalTargetStaysLocal(artifactUri, datasetType);
  }

  /**
   * Local origin, object-storage target, known origin: the data file goes to
   * `<prefix>/<role>_<file name>` (no prefix part when the prefix is falsy), uploaded before the
   * artifact, and the returned origin is that blob as a `gs://` location. When the role has no
   * `/`, the blob's last segment is `<role>_<file name>`.
   */
  lemma GcsTargetWithOriginPlan(artifactUri: string, root: Option<string>, datasetType: string,
                                c: Collaborators)
    requires Truthy(root) && !IsGcsUri(root.value)
    requires IsGcsUri(artifactUri)
    ensures var p := SerializeDataLoader(artifactUri, root, datasetType, c);
            var GcsSplit(bucket, prefix) := c.splitGcsPath(artifactUri);
            var blob := datasetType + "_" + PathName(root.value);
            var blobPath := if Truthy(prefix) then prefix.value + "/" + blob else blob;
            && p.origin == Some("gs://" + bucket + "/" + blobPath)
            && IsGcsUri(p.origin.value)
            && ('/' !in datasetType ==> AfterLast(blobPath, '/') == blob)
            && p.effects == [UploadFile(bucket, blobPath, root.value),
                             SaveTmpAndCopyToGcs(ArtifactFileName(datasetType), bucket, prefix)]
  {
    if '/' !in datasetType {
      DataBlobLastSegment(c.splitGcsPath(artifactUri).prefix, datasetType, root.value);
    }
  }

  /** The data blob's last path segment is `<role>_<file name>`, whatever the prefix. */
  lemma DataBlobLastSegment(prefix: Option<string>, datasetType: string, dataloaderPath: string)
    requires '/' !in datasetType
    ensures AfterLast(DataBlobPath(prefix, datasetType, dataloaderPath), '/')
            == datasetType + "_" + PathName(dataloaderPath)
  {
    var blob := datasetType + "_" + PathName(dataloaderPath);
    assert '/' !in blob;
    if Truthy(prefix) {
      AfterLastJoin(prefix.value, blob, '/');
      assert prefix.value + "/" + blob == prefix.value + ['/'] + blob;
    } else {
      assert |AfterLast(blob, '/')| == |blob|;
    }
  }

  /** Local origin, object-storage target, no origin (`None` or `""`): no origin is returned and only the artifact is uploaded. */
  lemma GcsTargetWithoutOriginPlan(artifactUri: string, root: Option<string>, datasetType: string,
                                   c: Collaborators)
    requires !Truthy(root)
    requires IsGcsUri(artifactUri)
    ensures var p := SerializeDataLoader(artifactUri, root, datasetType, c);
            var split := c.splitGcsPath(artifactUri);
            && p.origin == None
            && p.effects == [SaveTmpAndCopyToGcs(ArtifactFileName(datasetType), split.bucket, split.prefix)]
  {
  }

  /**
   * The returned origin is present exactly when the dataset had a truthy root, except on the
   * local-to-local strategy, which hands `root` back as it came (`""` included).
   */
  lemma OriginPresence(artifactUri: string, root: Option<string>, datasetType: string, c: Collaborators)
    ensures var p := SerializeDataLoader(artifactUri, root, datasetType, c);
            && (p.branch == LocalOriginLocalTarget ==> p.origin == root)
            && (p.branch != LocalOriginLocalTarget ==> (p.origin.Some? <==> Truthy(root)))
  {
  }

  /** The origin file of the worked example is named `train.csv`. */
  lemma ExampleFileName()
    ensures PathName("/data/train.csv") == "train.csv"
  {
    assert "/data/train.csv" == "/data" + "/" + "train.csv";
    PathNameAfterSlash("/data", "train.csv");
  }

  /** The data blob of the worked example. */
  lemma ExampleBlobPath()
    ensures GcsScheme + "bkt" + "/" + DataBlobPath(Some("out"), "training", "/data/train.csv")
            == "gs://bkt/out/training_train.csv"
  {
    var name := PathName("/data/train.csv");
    ExampleFileName();
    assert DataBlobPath(Some("out"), "training", "/data/train.csv") == "out" + "/" + ("training" + "_" + name);
    ExampleLocationText();
  }

  /** The example's pieces spelled out. */
  lemma ExampleLocationText()
    ensures GcsScheme + "bkt" + "/" + ("out" + "/" + ("training" + "_" + "train.csv")) == "gs://bkt/out/training_train.csv"
  {
  }

  /** The worked example: target `gs://bkt/out/`, origin `/data/train.csv`, role `training`. */
  lemma TrainingExample(c: Collaborators)
    requires c.splitGcsPath("gs://bkt/out/") == GcsSplit("bkt", Some("out"))
    ensures SerializeDataLoader("gs://bkt/out/", Some("/data/train.csv"), "training", c).origin
            == Some("gs://bkt/out/training_train.csv")
  {
    var p := "/data/train.csv";
    var uri := "gs://bkt/out/";
    assert p[0] != GcsScheme[0];
    assert uri[..5] == GcsScheme;
    ExampleBlobPath();
  }

  // ---------------------------------------------------------------------------------------------
  // Running the effects: one attempt each, the first failure propagates unchanged.

  /** The effects that were attempted and the error that stopped them, if any. */
  datatype Performed = Performed(done: seq<Effect>, raised: Option<PyError>)

  /**
   * Attempts `effects` in order, once each; `fails(e)` is the error effect `e` raises, if any.
   * What was attempted is a prefix of the plan; with no error it is the whole plan, and an
   * error is exactly the one the last attempted effect raised, after all earlier ones succeeded.
   */
  function Perform(effects: seq<Effect>, fails: Effect -> Option<PyError>): (r: Performed)
    ensures r.done <= effects
    ensures r.raised.None? <==> r.done == effects && forall i :: 0 <= i < |effects| ==> fails(effects[i]).None?
    ensures r.raised.Some? ==> |r.done| >= 1 && r.raised == fails(r.done[|r.done| - 1])
    ensures forall i :: 0 <= i < |r.done| - 1 ==> fails(r.done[i]).None?
  {
    if |effects| == 0 then Performed([], None)
    else match fails(effects[0])
      case Some(err) => Performed([effects[0]], Some(err))
      case None =>
        var rest := Perform(effects[1..], fails);
        Performed([effects[0]] + rest.done, rest.raised)
  }

  /** The whole serialize: the returned pair on success, otherwise the store's error, unmodified. */
  datatype Serialized = Serialized(attempted: seq<Effect>, result: Result<(string, Option<string>), PyError>)

  function SerializeDataLoaderRun(artifactUri: string, root: Option<string>, datasetType: string,
                                  c: Collaborators, fails: Effect -> Option<PyError>): (r: Serialized)
    ensures var p := SerializeDataLoader(artifactUri, root, datasetType, c);
            && r.attempted <= p.effects
            && (r.result.Ok? <==> forall i :: 0 <= i < |p.effects| ==> fails(p.effects[i]).None?)
            && (r.result.Ok? ==> r.result.value == (p.artifact, p.origin) && r.attempted == p.effects)
            && (r.result.Err? ==> |r.attempted| >= 1 && Some(r.result.error) == fails(r.attempted[|r.attempted| - 1]))
  {
    var p := SerializeDataLoader(artifactUri, root, datasetType, c);
    var run := Perform(p.effects, fails);
    match run.raised
    case None => Serialized(run.done, Ok((p.artifact, p.origin)))
    case Some(err) => Serialized(run.done, Err(err))
  }

  // ---------------------------------------------------------------------------------------------
  // Deserialize.

  /** What `torch.load` finds in a file: a saved object, or bytes it rejects with an error. */
  datatype Stored<D> = Saved(obj: D) | Unreadable(error: PyError)

  /** Observable steps of a deserialize; the temporary directory's entry and exit are explicit. */
  datatype Event =
    | LoadFrom(path: string)
    | EnterTempDir(dir: string)
    | DownloadTo(bucket: string, blob: Option<string>, dest: string)
    | ExitTempDir(dir: string)

  datatype Deserialized<D> = Deserialized(result: Result<D, PyError>, events: seq<Event>)

  /**
   * `torch.load(path)` against the local file system `files`: the saved object when the file
   * holds one, the file's load error when it does not, and `FileNotFoundError` when it is missing.
   */
  function TorchLoad<D>(files: map<string, Stored<D>>, path: string): (r: Result<D, PyError>)
    ensures r.Ok? <==> path in files && files[path].Saved?
    ensures r.Ok? ==> r.value == files[path].obj
    ensures path in files && files[path].Unreadable? ==> r == Err(files[path].error)
    ensures path !in files ==> r.Err? && r.error.kind == FileNotFoundError && Contains(r.error.message, path)
  {
    if path !in files then
      ContainsMiddle("[Errno 2] No such file or directory: '", path, "'");
      Err(PyError(FileNotFoundError, "[Errno 2] No such file or directory: '" + path + "'"))
    else match files[path]
      case Saved(obj) => Ok(obj)
      case Unreadable(err) => Err(err)
  }

  /** The classes `except (ValueError, RuntimeError)` catches: those two and every class derived from them. */
  predicate CaughtOnLoad(kind: ErrorKind) {
    IsInstanceOf(kind, ValueError) || IsInstanceOf(kind, RuntimeError)
  }

  /**
   * The `except (ValueError, RuntimeError)` clause: an instance of either (subclasses included)
   * is re-raised as a `RuntimeError` whose message names the location and ends with the original
   * message; anything else passes through unchanged.
   */
  function WrapLoadError(artifactUri: string, err: PyError): (r: PyError)
    ensures CaughtOnLoad(err.kind) ==>
              && r.kind == RuntimeError
              && Contains(r.message, "'" + artifactUri + "'")
              && |err.message| <= |r.message|
              && r.message[|r.message| - |err.message|..] == err.message
    ensures !CaughtOnLoad(err.kind) ==> r == err
  {
    if CaughtOnLoad(err.kind) then
      var msg := "There was a problem reading the model at " + ("'" + artifactUri + "'") + ": " + err.message;
      ContainsMiddle("There was a problem reading the model at ", "'" + artifactUri + "'", ": " + err.message);
      assert msg == "There was a problem reading the model at " + ("'" + artifactUri + "'") + (": " + err.message);
      assert msg[|msg| - |err.message|..] == err.message;
      PyError(RuntimeError, msg)
    else err
  }

  /**
   * `_deserialize_dataloader`. A location outside object storage is loaded in place (its errors
   * are not wrapped). Otherwise the storage client is built first, outside the `try`:
   * `clientError` is what that raises, if anything, and it propagates unwrapped before any
   * temporary directory exists. Then the blob is downloaded into a fresh temporary directory
   * `tmpDir` and loaded from there; `download(bucket, blob)` is what the download yields. Errors
   * from the download or the load go through `WrapLoadError`, and the directory is left on every
   * path.
   */
  function DeserializeDataLoader<D>(artifactUri: string, c: Collaborators, tmpDir: string,
                                    files: map<string, Stored<D>>,
                                    download: (string, Option<string>) -> Result<Stored<D>, PyError>,
                                    clientError: Option<PyError>)
    : (r: Deserialized<D>)
    ensures !IsGcsUri(artifactUri) ==>
              r.events == [LoadFrom(artifactUri)] && r.result == TorchLoad(files, artifactUri)
    ensures IsGcsUri(artifactUri) && clientError.Some? ==>
              r.events == [] && r.result == Err(clientError.value)
    ensures IsGcsUri(artifactUri) && clientError.None? ==>
              && |r.events| >= 3
              && r.events[0] == EnterTempDir(tmpDir)
              && r.events[|r.events| - 1] == ExitTempDir(tmpDir)
              && (forall i :: 0 < i < |r.events| - 1 ==> !r.events[i].EnterTempDir? && !r.events[i].ExitTempDir?)
  {
    if !IsGcsUri(artifactUri) then
      Deserialized(TorchLoad(files, artifactUri), [LoadFrom(artifactUri)])
    else if clientError.Some? then
      Deserialized(Err(clientError.value), [])
    else
      var GcsSplit(bucket, blob) := c.splitGcsPath(artifactUri);
      var dest := tmpDir + "/" + DownloadedFileName;
      var fetch := DownloadTo(bucket, blob, dest);
      match download(bucket, blob)
      case Err(err) =>
        Deserialized(Err(WrapLoadError(artifactUri, err)), [EnterTempDir(tmpDir), fetch, ExitTempDir(tmpDir)])
      case Ok(content) =>
        var loaded := TorchLoad(files[dest := content], dest);
        var result := match loaded
          case Ok(obj) => Ok(obj)
          case Err(err) => Err(WrapLoadError(artifactUri, err));
        Deserialized(result, [EnterTempDir(tmpDir), fetch, LoadFrom(dest), ExitTempDir(tmpDir)])
  }

  /**
   * A remote deserialize whose client is built yields the object the downloaded file holds; one
   * that fails in the download or the load with an instance of `ValueError` or `RuntimeError`
   * surfaces as a `RuntimeError` naming the location, any other error surfaces unchanged, and the
   * temporary directory is left last.
   */
  lemma RemoteLoadOutcome<D>(artifactUri: string, c: Collaborators, tmpDir: string,
                             files: map<string, Stored<D>>,
                             download: (string, Option<string>) -> Result<Stored<D>, PyError>)
    requires IsGcsUri(artifactUri)
    ensures var r := DeserializeDataLoader(artifactUri, c, tmpDir, files, download, None);
            var split := c.splitGcsPath(artifactUri);
            var raw := match download(split.bucket, split.prefix)
              case Err(err) => Some(err)
              case Ok(Unreadable(err)) => Some(err)
              case Ok(Saved(_)) => None;
            && (raw.None? <==> r.result.Ok?)
            && (raw.None? ==> r.result == Ok(download(split.bucket, split.prefix).value.obj))
            && (raw.Some? && CaughtOnLoad(raw.value.kind) ==>
                  r.result.Err? && r.result.error.kind == RuntimeError
                  && Contains(r.result.error.message, "'" + artifactUri + "'"))
            && (raw.Some? && !CaughtOnLoad(raw.value.kind) ==> r.result == Err(raw.value))
            && r.events[|r.events| - 1] == ExitTempDir(tmpDir)
  {
  }

  /** The file system after the local saves among `effects` write `obj`; uploads leave it alone. */
  function ApplyLocalSaves<D>(files: map<string, Stored<D>>, effects: seq<Effect>, obj: D): map<string, Stored<D>>
    decreases |effects|
  {
    if |effects| == 0 then files
    else
      var next := if effects[0].TorchSave? then files[effects[0].path := Saved(obj)] else files;
      ApplyLocalSaves(next, effects[1..], obj)
  }

  /**
   * Local origin and local target round trip: loading from the returned artifact location, after
   * the serialize's saves, gives back the DataLoader that was saved.
   */
  lemma LocalRoundTrip<D>(artifactUri: string, root: Option<string>, datasetType: string, c: Collaborators,
                          obj: D, tmpDir: string, files: map<string, Stored<D>>,
                          download: (string, Option<string>) -> Result<Stored<D>, PyError>,
                          clientError: Option<PyError>)
    requires !(Truthy(root) && IsGcsUri(root.value))
    requires !IsGcsUri(artifactUri)
    ensures var p := SerializeDataLoader(artifactUri, root, datasetType, c);
            DeserializeDataLoader(p.artifact, c, tmpDir, ApplyLocalSaves(files, p.effects, obj), download, clientError).result
            == Ok(obj)
  {
    var p := SerializeDataLoader(artifactUri, root, datasetType, c);
    LocalTargetPlan(artifactUri, root, datasetType, c);
    var saved := files[p.artifact := Saved(obj)];
    assert ApplyLocalSaves(files, p.effects, obj) == ApplyLocalSaves(saved, [], obj);
  }

  // ---------------------------------------------------------------------------------------------
  // Object storage.

  /** Object storage: what each (bucket, blob) holds, as `torch.load` would read it. */
  type BlobStore<D> = map<(string, Option<string>), Stored<D>>

  /**
   * What one effect writes to object storage: the save-and-copy puts the DataLoader where the copy
   * helper writes, an upload puts the local file (as `contents` reads it) at its blob, and a local
   * save leaves the store alone.
   */
  function StoreWrite<D>(blobs: BlobStore<D>, e: Effect, obj: D, c: Collaborators,
                         contents: string -> Stored<D>): BlobStore<D>
  {
    match e
    case SaveTmpAndCopyToGcs(name, bucket, prefix) => blobs[c.copyDestination(name, bucket, prefix) := Saved(obj)]
    case UploadFile(bucket, blobName, localFile) => blobs[(bucket, Some(blobName)) := contents(localFile)]
    case TorchSave(_) => blobs
  }

  /** The store after the effects, in order. */
  function ApplyStoreWrites<D>(blobs: BlobStore<D>, effects: seq<Effect>, obj: D, c: Collaborators,
                               contents: string -> Stored<D>): BlobStore<D>
    decreases |effects|
  {
    if |effects| == 0 then blobs
    else ApplyStoreWrites(StoreWrite(blobs, effects[0], obj, c, contents), effects[1..], obj, c, contents)
  }

  /** When the last effect is a save-and-copy, its destination holds the DataLoader afterwards, whatever came before. */
  lemma {:induction false} LastCopyWins<D>(blobs: BlobStore<D>, effects: seq<Effect>, obj: D, c: Collaborators,
                                           contents: string -> Stored<D>)
    requires |effects| >= 1 && effects[|effects| - 1].SaveTmpAndCopyToGcs?
    decreases |effects|
    ensures var e := effects[|effects| - 1];
            var key := c.copyDestination(e.fileName, e.bucket, e.prefix);
            var after := ApplyStoreWrites(blobs, effects, obj, c, contents);
            key in after && after[key] == Saved(obj)
  {
    if |effects| > 1 {
      LastCopyWins(StoreWrite(blobs, effects[0], obj, c, contents), effects[1..], obj, c, contents);
      assert effects[1..][|effects| - 2] == effects[|effects| - 1];
    }
  }

  /** A download from the store: the stored file, or `NotFound` for a missing blob. */
  function Fetch<D>(blobs: BlobStore<D>): (string, Option<string>) -> Result<Stored<D>, PyError> {
    (bucket: string, blob: Option<string>) =>
      if (bucket, blob) in blobs then Ok(blobs[(bucket, blob)]) else Err(PyError(OtherError("NotFound"), bucket))
  }

  /**
   * Round trip through object storage. Suppose the copy helper returns a `gs://` location that
   * splits into the bucket and blob it wrote. Then, after the serialize's effects have written
   * the store, deserializing the returned artifact location gives back the saved DataLoader.
   * This holds whatever the store and the local files held before and whatever the uploaded data
   * file holds, unless building the storage client fails.
   */
  lemma GcsRoundTrip<D>(artifactUri: string, root: Option<string>, datasetType: string, c: Collaborators,
                        obj: D, tmpDir: string, files: map<string, Stored<D>>, blobs: BlobStore<D>,
                        contents: string -> Stored<D>, clientError: Option<PyError>)
    requires (Truthy(root) && IsGcsUri(root.value)) || IsGcsUri(artifactUri)
    requires var split := c.splitGcsPath(artifactUri);
             var name := ArtifactFileName(datasetType);
             var location := c.copiedPath(name, split.bucket, split.prefix);
             var dest := c.copyDestination(name, split.bucket, split.prefix);
             IsGcsUri(location) && c.splitGcsPath(location) == GcsSplit(dest.0, dest.1)
    ensures var p := SerializeDataLoader(artifactUri, root, datasetType, c);
            var store := ApplyStoreWrites(blobs, p.effects, obj, c, contents);
            var r := DeserializeDataLoader(p.artifact, c, tmpDir, files, Fetch(store), clientError);
            r.result == if clientError.Some? then Err(clientError.value) else Ok(obj)
  {
    var p := SerializeDataLoader(artifactUri, root, datasetType, c);
    var e := ArtifactCopy(artifactUri, datasetType, c);
    assert p.effects[|p.effects| - 1] == e && p.artifact == c.copiedPath(e.fileName, e.bucket, e.prefix);
    LastCopyWins(blobs, p.effects, obj, c, contents);
  }
}
