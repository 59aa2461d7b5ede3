/** The transfer side of GoSFTPtoS3: the ignore filter, the reference rename
    function, and PutToS3, which walks a remote folder, filters its entries,
    descends into directories and copies each remaining file into a bucket. */
module Mirror {
  import opened Wrappers
  import opened GoUtils

  type Bytes = seq<bv8>

  /** A Go error value, reduced to its message. */
  datatype Error = Error(message: string)

  // ---------------------------------------------------------------- isIgnore

  /** Some ignore string, lower-cased, occurs in the lower-cased path. */
  predicate Ignored(ignores: seq<string>, path: string) {
    exists i :: 0 <= i < |ignores| && Contains(ToLower(path), ToLower(ignores[i]))
  }

  /** isIgnore: scans the ignore list and stops at the first entry that
      occurs, case-insensitively, in the path. */
  method IsIgnore(ignores: seq<string>, currentPath: string) returns (ignored: bool)
    ensures ignored <==> Ignored(ignores, currentPath)
  {
    for i := 0 to |ignores|
      invariant forall j :: 0 <= j < i ==> !Contains(ToLower(currentPath), ToLower(ignores[j]))
    {
      if Contains(ToLower(currentPath), ToLower(ignores[i])) {
        return true;
      }
    }
    return false;
  }

  /** An empty ignore list ignores nothing. */
  lemma NoIgnoresIgnoresNothing(path: string)
    ensures !Ignored([], path)
  {
  }

  /** An empty string in the ignore list ignores every path. */
  lemma EmptyIgnoreMatchesAll(ignores: seq<string>, path: string)
    requires "" in ignores
    ensures Ignored(ignores, path)
  {
    var i :| 0 <= i < |ignores| && ignores[i] == "";
    assert ToLower(ignores[i]) <= ToLower(path);
  }

  lemma ToLowerIdempotent(s: string)
    ensures ToLower(ToLower(s)) == ToLower(s)
  {
  }

  /** The filter does not see letter case in the path. */
  lemma IgnoredIgnoresCase(ignores: seq<string>, path: string)
    ensures Ignored(ignores, path) <==> Ignored(ignores, ToLower(path))
  {
    ToLowerIdempotent(path);
  }

  // -------------------------------------------------------------- RenameFile

  /** RenameFile: drops the first "/"-separated segment of the path. */
  function RenameFile(fName: string): string
  {
    var s := Split(fName);
    Join(s[1..])
  }

  /** Whatever follows the first separator is kept. */
  lemma RenameFileDropsFirstSegment(first: string, rest: string)
    requires '/' !in first
    ensures RenameFile(first + "/" + rest) == rest
  {
    SplitAfterFirst(first, rest);
    assert ([first] + Split(rest))[1..] == Split(rest);
  }

  /** The same, for a path given with the index of its first separator. */
  lemma RenameFileAfterFirstSlash(path: string, i: nat)
    requires i < |path| && path[i] == '/' && '/' !in path[..i]
    ensures RenameFile(path) == path[i + 1..]
  {
    assert path == path[..i] + "/" + path[i + 1..];
    RenameFileDropsFirstSegment(path[..i], path[i + 1..]);
  }

  /** A path of a single segment renames to the empty key. */
  lemma RenameFileNoSeparator(path: string)
    requires '/' !in path
    ensures RenameFile(path) == ""
  {
    SplitNoSeparator(path);
  }

  /** The example of the doc comment. */
  lemma RenameFileExample()
    ensures RenameFile("first_folder/second_folder/file_name.txt") == "second_folder/file_name.txt"
  {
    var path := "first_folder/second_folder/file_name.txt";
    assert path[12] == '/';
    assert path[..12] == "first_folder";
    assert '/' !in "first_folder";
    assert path[13..] == "second_folder/file_name.txt";
    RenameFileAfterFirstSlash(path, 12);
  }

  // ---------------------------------------------------- walker, SFTP and S3

  /** One step of the remote walker: the path it reports, whether Stat says
      directory, whether Err was set, and the walk that a recursive PutToS3
      rooted at this path would see. */
  datatype Step = Step(path: string, isDir: bool, failed: bool, sub: Walk)

  /** What c.Client.Walk(root) yields, in order. */
  datatype Walk = Walk(steps: seq<Step>)

  /** The SFTP client as PutToS3 uses it: Get reads a whole remote file. */
  datatype SFTPClient = SFTPClient(get: string -> Result<Bytes, Error>)

  datatype ObjectKey = ObjectKey(bucket: string, key: string)

  type Objects = map<ObjectKey, Bytes>

  /** The object store written by s3utils.PutObject. Whether a write is
      refused, and with which error, is the service's own decision. */
  class ObjectStore {
    var objects: Objects
    const refusal: ObjectKey -> Option<Error>

    constructor (objects: Objects, refusal: ObjectKey -> Option<Error>)
      ensures this.objects == objects && this.refusal == refusal
    {
      this.objects := objects;
      this.refusal := refusal;
    }

    /** s3utils.PutObject: stores the body under the key unless refused. */
    method PutObject(bucket: string, key: string, body: Bytes) returns (err: Option<Error>)
      modifies this`objects
      ensures err == refusal(ObjectKey(bucket, key))
      ensures err.None? ==> objects == old(objects)[ObjectKey(bucket, key) := body]
      ensures err.Some? ==> objects == old(objects)
    {
      err := refusal(ObjectKey(bucket, key));
      if err.None? {
        objects := objects[ObjectKey(bucket, key) := body];
      }
    }
  }

  // ------------------------------------------------------------------ PutToS3

  /** What stays fixed through the recursion of PutToS3. `keeps` is the name
      test applied to a path with the ignore and prefix lists of the current
      call; PutToS3 uses NameFilter, and the lemmas about Run below hold for
      any name test. */
  datatype Env = Env(
    client: SFTPClient,
    refusal: ObjectKey -> Option<Error>,
    bucket: string,
    rename: string -> string,
    keeps: (string, seq<string>, seq<string>) -> bool)

  /** The outcome of a call: the result list or error, and the store after it. */
  datatype Outcome = Outcome(result: Result<seq<string>, Error>, objects: Objects)

  /** The name tests of PutToS3: the base name of `path` starts with one of
      `prefix` (or `prefix` is empty) and no entry of `ignores` matches `path`. */
  predicate NameFilter(path: string, ignores: seq<string>, prefix: seq<string>) {
    HasPrefixArray(prefix, Base(path)) && !Ignored(ignores, path)
  }

  /** An entry PutToS3 does not skip: no walker error, not the root itself,
      and a path that passes the name tests, which PutToS3 fixes to
      NameFilter. */
  predicate Admitted(env: Env, s: Step, root: string, ignores: seq<string>, prefix: seq<string>) {
    !s.failed && s.path != root && env.keeps(s.path, ignores, prefix)
  }

  /** PutToS3 from step i on, with `files` recorded and the store holding
      `objects`. A directory is processed by a recursive call that receives
      the prefix list in the ignore position and the ignore list in the prefix
      position, and whose result list is dropped; any failure ends the call. */
  function Run(env: Env, w: Walk, root: string, ignores: seq<string>, prefix: seq<string>,
               i: nat, files: seq<string>, objects: Objects): Outcome
    requires i <= |w.steps|
    decreases w, |w.steps| - i
  {
    if i == |w.steps| then Outcome(Success(files), objects)
    else
      var s := w.steps[i];
      if !Admitted(env, s, root, ignores, prefix) then
        Run(env, w, root, ignores, prefix, i + 1, files, objects)
      else if s.isDir then
        var sub := Run(env, s.sub, s.path, prefix, ignores, 0, [], objects);
        if sub.result.Failure? then Outcome(Failure(sub.result.error), sub.objects)
        else Run(env, w, root, ignores, prefix, i + 1, files, sub.objects)
      else
        match env.client.get(s.path)
        case Failure(e) => Outcome(Failure(e), objects)
        case Success(data) =>
          var key := ObjectKey(env.bucket, env.rename(s.path));
          match env.refusal(key)
          case Some(e) => Outcome(Failure(e), objects)
          case None => Run(env, w, root, ignores, prefix, i + 1, files + [s.path], objects[key := data])
  }

  /** PutToS3: walks sftpFolder, skipping walker errors, the folder itself,
      names without an accepted prefix and ignored paths; descends into
      directories and copies files to the bucket under their renamed key,
      listing the files copied at this level. */
  method PutToS3(c: SFTPClient, s3: ObjectStore, walk: Walk, sftpFolder: string, bucket: string,
                 ignores: seq<string>, prefix: seq<string>, renameFile: string -> string)
    returns (r: Result<seq<string>, Error>)
    modifies s3`objects
    decreases walk
    ensures Outcome(r, s3.objects) ==
            Run(Env(c, s3.refusal, bucket, renameFile, NameFilter), walk, sftpFolder, ignores, prefix, 0, [], old(s3.objects))
  {
    ghost var env := Env(c, s3.refusal, bucket, renameFile, NameFilter);
    var fileProcessed: seq<string> := [];
    var i := 0;
    while i < |walk.steps|
      invariant i <= |walk.steps|
      invariant Run(env, walk, sftpFolder, ignores, prefix, i, fileProcessed, s3.objects) ==
                Run(env, walk, sftpFolder, ignores, prefix, 0, [], old(s3.objects))
    {
      var step := walk.steps[i];
      ghost var j, before := i, s3.objects;
      i := i + 1;
      if step.failed {
        RunSkips(env, walk, sftpFolder, ignores, prefix, j, fileProcessed, before);
        continue;
      }
      var currentPath := step.path;
      if currentPath == sftpFolder {
        RunSkips(env, walk, sftpFolder, ignores, prefix, j, fileProcessed, before);
        continue;
      }
      var fName := Base(currentPath);
      if !HasPrefixArray(prefix, fName) {
        RunSkips(env, walk, sftpFolder, ignores, prefix, j, fileProcessed, before);
        continue;
      }
      var ignored := IsIgnore(ignores, currentPath);
      if ignored {
        RunSkips(env, walk, sftpFolder, ignores, prefix, j, fileProcessed, before);
        continue;
      }
      assert Admitted(env, step, sftpFolder, ignores, prefix);
      if step.isDir {
        var sub := PutToS3(c, s3, step.sub, currentPath, bucket, prefix, ignores, renameFile);
        if sub.Failure? {
          return Failure(sub.error);
        }
        RunDescends(env, walk, sftpFolder, ignores, prefix, j, fileProcessed, before);
        assert Run(env, walk, sftpFolder, ignores, prefix, i, fileProcessed, s3.objects) ==
               Run(env, walk, sftpFolder, ignores, prefix, 0, [], old(s3.objects));
      } else {
        var get := c.get(currentPath);
        if get.Failure? {
          return Failure(get.error);
        }
        var s3FileName := renameFile(currentPath);
        var err := s3.PutObject(bucket, s3FileName, get.value);
        if err.Some? {
          return Failure(err.value);
        }
        RunCopies(env, walk, sftpFolder, ignores, prefix, j, fileProcessed, before);
        fileProcessed := fileProcessed + [currentPath];
        assert Run(env, walk, sftpFolder, ignores, prefix, i, fileProcessed, s3.objects) ==
               Run(env, walk, sftpFolder, ignores, prefix, 0, [], old(s3.objects));
      }
    }
    return Success(fileProcessed);
  }

  // -------------------------------------------------------- steps of Run

  /** Run at the end of the walk. */
  lemma RunEnds(env: Env, w: Walk, root: string, ignores: seq<string>, prefix: seq<string>,
                files: seq<string>, objects: Objects)
    ensures Run(env, w, root, ignores, prefix, |w.steps|, files, objects) == Outcome(Success(files), objects)
  {
  }

  /** One step of Run on a skipped entry. */
  lemma RunSkips(env: Env, w: Walk, root: string, ignores: seq<string>, prefix: seq<string>,
                 i: nat, files: seq<string>, objects: Objects)
    requires i < |w.steps| && !Admitted(env, w.steps[i], root, ignores, prefix)
    ensures Run(env, w, root, ignores, prefix, i, files, objects) ==
            Run(env, w, root, ignores, prefix, i + 1, files, objects)
  {
  }

  /** One step of Run on a file that is fetched and stored. */
  lemma RunCopies(env: Env, w: Walk, root: string, ignores: seq<string>, prefix: seq<string>,
                  i: nat, files: seq<string>, objects: Objects)
    requires i < |w.steps| && Admitted(env, w.steps[i], root, ignores, prefix) && !w.steps[i].isDir
    requires env.client.get(w.steps[i].path).Success?
    requires env.refusal(KeyOf(env, w.steps[i].path)).None?
    ensures Run(env, w, root, ignores, prefix, i, files, objects) ==
            Run(env, w, root, ignores, prefix, i + 1, files + [w.steps[i].path],
                objects[KeyOf(env, w.steps[i].path) := env.client.get(w.steps[i].path).value])
  {
  }

  /** One step of Run on a directory whose recursive call succeeds. */
  lemma RunDescends(env: Env, w: Walk, root: string, ignores: seq<string>, prefix: seq<string>,
                    i: nat, files: seq<string>, objects: Objects)
    requires i < |w.steps| && Admitted(env, w.steps[i], root, ignores, prefix) && w.steps[i].isDir
    requires Run(env, w.steps[i].sub, w.steps[i].path, prefix, ignores, 0, [], objects).result.Success?
    ensures Run(env, w, root, ignores, prefix, i, files, objects) ==
            Run(env, w, root, ignores, prefix, i + 1, files,
                Run(env, w.steps[i].sub, w.steps[i].path, prefix, ignores, 0, [], objects).objects)
  {
  }

  /** A step of Run on a directory succeeds only if its recursive call does. */
  lemma RunNeedsSub(env: Env, w: Walk, root: string, ignores: seq<string>, prefix: seq<string>,
                    i: nat, files: seq<string>, objects: Objects)
    requires i < |w.steps| && Admitted(env, w.steps[i], root, ignores, prefix) && w.steps[i].isDir
    requires Run(env, w, root, ignores, prefix, i, files, objects).result.Success?
    ensures Run(env, w.steps[i].sub, w.steps[i].path, prefix, ignores, 0, [], objects).result.Success?
  {
  }

  /** A step of Run on a file succeeds only if the file is fetched and stored. */
  lemma RunNeedsCopy(env: Env, w: Walk, root: string, ignores: seq<string>, prefix: seq<string>,
                     i: nat, files: seq<string>, objects: Objects)
    requires i < |w.steps| && Admitted(env, w.steps[i], root, ignores, prefix) && !w.steps[i].isDir
    requires Run(env, w, root, ignores, prefix, i, files, objects).result.Success?
    ensures env.client.get(w.steps[i].path).Success?
    ensures env.refusal(KeyOf(env, w.steps[i].path)).None?
  {
  }

  // ------------------------------------------------------ what PutToS3 does

  /** The files of this level, from step i on, that PutToS3 copies when
      nothing fails. */
  function TopFiles(env: Env, w: Walk, root: string, ignores: seq<string>, prefix: seq<string>, i: nat): seq<string>
    requires i <= |w.steps|
    decreases |w.steps| - i
  {
    if i == |w.steps| then []
    else
      (if Admitted(env, w.steps[i], root, ignores, prefix) && !w.steps[i].isDir then [w.steps[i].path] else [])
      + TopFiles(env, w, root, ignores, prefix, i + 1)
  }

  /** Every listed path is a file entry of this level, from step i on, that
      carries no walker error, is not the root and passes the name test. */
  lemma {:induction false} TopFilesAreAdmitted(env: Env, w: Walk, root: string, ignores: seq<string>,
                                               prefix: seq<string>, i: nat, p: string)
    requires i <= |w.steps|
    requires p in TopFiles(env, w, root, ignores, prefix, i)
    ensures exists j :: i <= j < |w.steps| && w.steps[j].path == p && !w.steps[j].isDir &&
                        !w.steps[j].failed && p != root && env.keeps(p, ignores, prefix)
    decreases |w.steps| - i
  {
    var s := w.steps[i];
    if Admitted(env, s, root, ignores, prefix) && !s.isDir && p == s.path {
      assert i <= i < |w.steps| && w.steps[i].path == p;
    } else {
      TopFilesAreAdmitted(env, w, root, ignores, prefix, i + 1, p);
    }
  }

  /** On success the result lists exactly the admitted file entries of this
      call's own walk, in walk order; files copied only by a recursive call
      are not listed. */
  lemma {:induction false} RunListsTopLevelFiles(env: Env, w: Walk, root: string, ignores: seq<string>,
                                                 prefix: seq<string>, i: nat, files: seq<string>, objects: Objects)
    requires i <= |w.steps|
    requires Run(env, w, root, ignores, prefix, i, files, objects).result.Success?
    ensures Run(env, w, root, ignores, prefix, i, files, objects).result.value ==
            files + TopFiles(env, w, root, ignores, prefix, i)
    decreases |w.steps| - i
  {
    if i == |w.steps| {
      RunEnds(env, w, root, ignores, prefix, files, objects);
    } else {
      var s := w.steps[i];
      if !Admitted(env, s, root, ignores, prefix) {
        RunSkips(env, w, root, ignores, prefix, i, files, objects);
        RunListsTopLevelFiles(env, w, root, ignores, prefix, i + 1, files, objects);
      } else if s.isDir {
        var sub := Run(env, s.sub, s.path, prefix, ignores, 0, [], objects);
        RunNeedsSub(env, w, root, ignores, prefix, i, files, objects);
        RunDescends(env, w, root, ignores, prefix, i, files, objects);
        RunListsTopLevelFiles(env, w, root, ignores, prefix, i + 1, files, sub.objects);
      } else {
        var rest := TopFiles(env, w, root, ignores, prefix, i + 1);
        RunNeedsCopy(env, w, root, ignores, prefix, i, files, objects);
        RunCopies(env, w, root, ignores, prefix, i, files, objects);
        RunListsTopLevelFiles(env, w, root, ignores, prefix, i + 1, files + [s.path],
                              objects[KeyOf(env, s.path) := env.client.get(s.path).value]);
        assert files + [s.path] + rest == files + ([s.path] + rest);
      }
    }
  }

  /** A file PutToS3 tries to fetch when nothing fails before it: an admitted
      file entry from step i on, or one reached through an admitted directory,
      whose walk is filtered with the two lists swapped. */
  predicate Reaches(env: Env, w: Walk, root: string, ignores: seq<string>, prefix: seq<string>, i: nat, p: string)
    decreases w, |w.steps| - i
  {
    i < |w.steps| &&
    (|| (&& Admitted(env, w.steps[i], root, ignores, prefix)
         && if w.steps[i].isDir then Reaches(env, w.steps[i].sub, w.steps[i].path, prefix, ignores, 0, p)
            else w.steps[i].path == p)
     || Reaches(env, w, root, ignores, prefix, i + 1, p))
  }

  function KeyOf(env: Env, p: string): ObjectKey {
    ObjectKey(env.bucket, env.rename(p))
  }

  /** The store only grows: no key is ever removed. */
  lemma {:induction false} RunKeepsKeys(env: Env, w: Walk, root: string, ignores: seq<string>,
                                        prefix: seq<string>, i: nat, files: seq<string>, objects: Objects)
    requires i <= |w.steps|
    ensures objects.Keys <= Run(env, w, root, ignores, prefix, i, files, objects).objects.Keys
    decreases w, |w.steps| - i
  {
    if i < |w.steps| {
      var s := w.steps[i];
      if !Admitted(env, s, root, ignores, prefix) {
        RunKeepsKeys(env, w, root, ignores, prefix, i + 1, files, objects);
      } else if s.isDir {
        var sub := Run(env, s.sub, s.path, prefix, ignores, 0, [], objects);
        RunKeepsKeys(env, s.sub, s.path, prefix, ignores, 0, [], objects);
        if sub.result.Success? {
          RunKeepsKeys(env, w, root, ignores, prefix, i + 1, files, sub.objects);
        }
      } else if env.client.get(s.path).Success? && env.refusal(KeyOf(env, s.path)).None? {
        var data := env.client.get(s.path).value;
        RunKeepsKeys(env, w, root, ignores, prefix, i + 1, files + [s.path], objects[KeyOf(env, s.path) := data]);
      }
    }
  }

  /** Every object PutToS3 adds or overwrites, also on a failed call, holds
      the bytes fetched for a reached file and sits under that file's
      renamed key in the given bucket. */
  lemma {:induction false} RunStoresOnlyReachedFiles(env: Env, w: Walk, root: string, ignores: seq<string>,
                                                     prefix: seq<string>, i: nat, files: seq<string>,
                                                     objects: Objects, k: ObjectKey)
    requires i <= |w.steps|
    requires k in Run(env, w, root, ignores, prefix, i, files, objects).objects
    requires k !in objects || objects[k] != Run(env, w, root, ignores, prefix, i, files, objects).objects[k]
    ensures exists p :: Reaches(env, w, root, ignores, prefix, i, p) && k == KeyOf(env, p) &&
                        env.client.get(p) == Success(Run(env, w, root, ignores, prefix, i, files, objects).objects[k])
    decreases w, |w.steps| - i
  {
    var out := Run(env, w, root, ignores, prefix, i, files, objects);
    var s := w.steps[i];
    if !Admitted(env, s, root, ignores, prefix) {
      RunStoresOnlyReachedFiles(env, w, root, ignores, prefix, i + 1, files, objects, k);
    } else if s.isDir {
      var sub := Run(env, s.sub, s.path, prefix, ignores, 0, [], objects);
      if sub.result.Failure? || (k in sub.objects && out.objects[k] == sub.objects[k]) {
        RunStoresOnlyReachedFiles(env, s.sub, s.path, prefix, ignores, 0, [], objects, k);
      } else {
        RunStoresOnlyReachedFiles(env, w, root, ignores, prefix, i + 1, files, sub.objects, k);
      }
    } else {
      var data := env.client.get(s.path).value;
      var next := objects[KeyOf(env, s.path) := data];
      if k in next && out.objects[k] == next[k] {
        assert Reaches(env, w, root, ignores, prefix, i, s.path);
      } else {
        RunStoresOnlyReachedFiles(env, w, root, ignores, prefix, i + 1, files + [s.path], next, k);
      }
    }
  }

  /** On success every reached file was fetched, its write was accepted, and
      it has an object under its renamed key: no reached file can fail in a
      call that succeeds. */
  lemma {:induction false} RunStoresEveryReachedFile(env: Env, w: Walk, root: string, ignores: seq<string>,
                                                     prefix: seq<string>, i: nat, files: seq<string>,
                                                     objects: Objects, p: string)
    requires i <= |w.steps|
    requires Run(env, w, root, ignores, prefix, i, files, objects).result.Success?
    requires Reaches(env, w, root, ignores, prefix, i, p)
    ensures env.client.get(p).Success? && env.refusal(KeyOf(env, p)).None?
    ensures KeyOf(env, p) in Run(env, w, root, ignores, prefix, i, files, objects).objects
    decreases w, |w.steps| - i
  {
    var s := w.steps[i];
    if !Admitted(env, s, root, ignores, prefix) {
      RunStoresEveryReachedFile(env, w, root, ignores, prefix, i + 1, files, objects, p);
    } else if s.isDir {
      var sub := Run(env, s.sub, s.path, prefix, ignores, 0, [], objects);
      RunNeedsSub(env, w, root, ignores, prefix, i, files, objects);
      RunDescends(env, w, root, ignores, prefix, i, files, objects);
      if Reaches(env, s.sub, s.path, prefix, ignores, 0, p) {
        RunStoresEveryReachedFile(env, s.sub, s.path, prefix, ignores, 0, [], objects, p);
        RunKeepsKeys(env, w, root, ignores, prefix, i + 1, files, sub.objects);
      } else {
        RunStoresEveryReachedFile(env, w, root, ignores, prefix, i + 1, files, sub.objects, p);
      }
    } else {
      RunNeedsCopy(env, w, root, ignores, prefix, i, files, objects);
      RunCopies(env, w, root, ignores, prefix, i, files, objects);
      var data := env.client.get(s.path).value;
      var next := objects[KeyOf(env, s.path) := data];
      if s.path == p {
        RunKeepsKeys(env, w, root, ignores, prefix, i + 1, files + [s.path], next);
      } else {
        RunStoresEveryReachedFile(env, w, root, ignores, prefix, i + 1, files + [s.path], next, p);
      }
    }
  }

  /** A failed call returns the error of fetching or storing a reached file,
      unchanged, however deep the recursion that met it. */
  lemma {:induction false} RunFailureCause(env: Env, w: Walk, root: string, ignores: seq<string>,
                                           prefix: seq<string>, i: nat, files: seq<string>, objects: Objects)
    requires i <= |w.steps|
    requires Run(env, w, root, ignores, prefix, i, files, objects).result.Failure?
    ensures var e := Run(env, w, root, ignores, prefix, i, files, objects).result.error;
            exists p :: Reaches(env, w, root, ignores, prefix, i, p) &&
                        (|| env.client.get(p) == Failure(e)
                         || (env.client.get(p).Success? && env.refusal(KeyOf(env, p)) == Some(e)))
    decreases w, |w.steps| - i
  {
    var s := w.steps[i];
    if !Admitted(env, s, root, ignores, prefix) {
      RunFailureCause(env, w, root, ignores, prefix, i + 1, files, objects);
    } else if s.isDir {
      var sub := Run(env, s.sub, s.path, prefix, ignores, 0, [], objects);
      if sub.result.Failure? {
        RunFailureCause(env, s.sub, s.path, prefix, ignores, 0, [], objects);
      } else {
        RunFailureCause(env, w, root, ignores, prefix, i + 1, files, sub.objects);
      }
    } else if env.client.get(s.path).Failure? || env.refusal(KeyOf(env, s.path)).Some? {
      assert Reaches(env, w, root, ignores, prefix, i, s.path);
    } else {
      var data := env.client.get(s.path).value;
      RunFailureCause(env, w, root, ignores, prefix, i + 1, files + [s.path], objects[KeyOf(env, s.path) := data]);
    }
  }

  // ------------------------------------------------------------- fail-fast

  /** The files PutToS3 tries to fetch from step i on when nothing fails, in
      the order it tries them: an admitted file entry contributes its path,
      an admitted directory the files of its own walk, filtered with the two
      lists swapped. */
  function Reached(env: Env, w: Walk, root: string, ignores: seq<string>, prefix: seq<string>, i: nat): seq<string>
    requires i <= |w.steps|
    decreases w, |w.steps| - i
  {
    if i == |w.steps| then []
    else
      var s := w.steps[i];
      (if !Admitted(env, s, root, ignores, prefix) then []
       else if s.isDir then Reached(env, s.sub, s.path, prefix, ignores, 0)
       else [s.path])
      + Reached(env, w, root, ignores, prefix, i + 1)
  }

  /** The error, if any, that ends a sequence of copies, and the store after it. */
  datatype Transfer = Transfer(error: Option<Error>, objects: Objects)

  /** Copies the files `ps` one after the other, each fetched and written
      under its renamed key, and stops at the first fetch that fails or the
      first write that is refused, with that error. */
  function CopyAll(env: Env, ps: seq<string>, objects: Objects): Transfer
    decreases |ps|
  {
    if ps == [] then Transfer(None, objects)
    else
      match env.client.get(ps[0])
      case Failure(e) => Transfer(Some(e), objects)
      case Success(data) =>
        match env.refusal(KeyOf(env, ps[0]))
        case Some(e) => Transfer(Some(e), objects)
        case None => CopyAll(env, ps[1..], objects[KeyOf(env, ps[0]) := data])
  }

  /** Copying `ps + qs` copies `ps` and, unless that fails, then `qs`. */
  lemma {:induction false} CopyAllAppend(env: Env, ps: seq<string>, qs: seq<string>, objects: Objects)
    ensures var t := CopyAll(env, ps, objects);
            CopyAll(env, ps + qs, objects) == if t.error.Some? then t else CopyAll(env, qs, t.objects)
    decreases |ps|
  {
    if ps == [] {
      assert ps + qs == qs;
    } else {
      assert (ps + qs)[0] == ps[0];
      assert (ps + qs)[1..] == ps[1..] + qs;
      var g := env.client.get(ps[0]);
      if g.Success? && env.refusal(KeyOf(env, ps[0])).None? {
        CopyAllAppend(env, ps[1..], qs, objects[KeyOf(env, ps[0]) := g.value]);
      }
    }
  }

  /** A failed sequence of copies failed at one file, the first that failed:
      every file before it was copied, nothing after it was written, and its
      fetch failed with the error or its write was refused with it. */
  lemma {:induction false} CopyAllFailsFast(env: Env, ps: seq<string>, objects: Objects)
    requires CopyAll(env, ps, objects).error.Some?
    ensures var t := CopyAll(env, ps, objects);
            exists n ::
              && 0 <= n < |ps|
              && CopyAll(env, ps[..n], objects) == Transfer(None, t.objects)
              && (|| env.client.get(ps[n]) == Failure(t.error.value)
                  || (env.client.get(ps[n]).Success? && env.refusal(KeyOf(env, ps[n])) == t.error))
    decreases |ps|
  {
    var t := CopyAll(env, ps, objects);
    var g := env.client.get(ps[0]);
    if g.Failure? || env.refusal(KeyOf(env, ps[0])).Some? {
      assert ps[..0] == [];
    } else {
      var next := objects[KeyOf(env, ps[0]) := g.value];
      CopyAllFailsFast(env, ps[1..], next);
      var n :|
                && 0 <= n < |ps[1..]|
                && CopyAll(env, ps[1..][..n], next) == Transfer(None, t.objects)
                && (|| env.client.get(ps[1..][n]) == Failure(t.error.value)
                    || (env.client.get(ps[1..][n]).Success? && env.refusal(KeyOf(env, ps[1..][n])) == t.error));
      assert ps[..n + 1][0] == ps[0];
      assert ps[..n + 1][1..] == ps[1..][..n];
      assert 0 <= n + 1 < |ps| && ps[n + 1] == ps[1..][n];
    }
  }

  /** PutToS3 is fail-fast: from step i on it copies the reached files in
      walk order and stops at the first failing fetch or refused write. Its
      store is that of CopyAll on Reached, and it fails exactly when CopyAll
      does, with the same error. */
  lemma {:induction false} RunIsCopyAll(env: Env, w: Walk, root: string, ignores: seq<string>,
                                        prefix: seq<string>, i: nat, files: seq<string>, objects: Objects)
    requires i <= |w.steps|
    ensures var out := Run(env, w, root, ignores, prefix, i, files, objects);
            var t := CopyAll(env, Reached(env, w, root, ignores, prefix, i), objects);
            && out.objects == t.objects
            && (out.result.Failure? <==> t.error.Some?)
            && (out.result.Failure? ==> out.result.error == t.error.value)
    decreases w, |w.steps| - i
  {
    if i == |w.steps| {
      RunEnds(env, w, root, ignores, prefix, files, objects);
    } else {
      var s := w.steps[i];
      var rest := Reached(env, w, root, ignores, prefix, i + 1);
      if !Admitted(env, s, root, ignores, prefix) {
        assert Reached(env, w, root, ignores, prefix, i) == [] + rest;
        assert [] + rest == rest;
        RunSkips(env, w, root, ignores, prefix, i, files, objects);
        RunIsCopyAll(env, w, root, ignores, prefix, i + 1, files, objects);
      } else if s.isDir {
        var inner := Reached(env, s.sub, s.path, prefix, ignores, 0);
        assert Reached(env, w, root, ignores, prefix, i) == inner + rest;
        var sub := Run(env, s.sub, s.path, prefix, ignores, 0, [], objects);
        RunIsCopyAll(env, s.sub, s.path, prefix, ignores, 0, [], objects);
        CopyAllAppend(env, inner, rest, objects);
        if sub.result.Success? {
          RunDescends(env, w, root, ignores, prefix, i, files, objects);
          RunIsCopyAll(env, w, root, ignores, prefix, i + 1, files, sub.objects);
        }
      } else {
        assert Reached(env, w, root, ignores, prefix, i) == [s.path] + rest;
        assert ([s.path] + rest)[0] == s.path;
        assert ([s.path] + rest)[1..] == rest;
        var g := env.client.get(s.path);
        if g.Success? && env.refusal(KeyOf(env, s.path)).None? {
          RunCopies(env, w, root, ignores, prefix, i, files, objects);
          RunIsCopyAll(env, w, root, ignores, prefix, i + 1, files + [s.path], objects[KeyOf(env, s.path) := g.value]);
        }
      }
    }
  }

  // ------------------------------------------- the recursive call's arguments

  /** A remote folder `root` holding a subfolder `root/a` (with `tmp.log` and
      `x.txt`) and a file `root/tmpfile`. Each walk is listed as the library's
      walker yields it: depth first, a folder's entries in name order, so the
      files of `root/a` appear both in the outer walk and in the walk of the
      recursive call rooted at `root/a`. */
  function ExampleWalk(): Walk {
    var leaf := Walk([]);
    Walk([Step("root", true, false, leaf),
          Step("root/a", true, false, ExampleSubWalk()),
          Step("root/a/tmp.log", false, false, leaf),
          Step("root/a/x.txt", false, false, leaf),
          Step("root/tmpfile", false, false, leaf)])
  }

  /** The walk of the recursive call rooted at `root/a`. */
  function ExampleSubWalk(): Walk {
    var leaf := Walk([]);
    Walk([Step("root/a", true, false, leaf),
          Step("root/a/tmp.log", false, false, leaf),
          Step("root/a/x.txt", false, false, leaf)])
  }

  /** Every fetch returns one byte, every write is accepted, and files keep
      their path as key (the identity rename of the doc comment). */
  function ExampleEnv(): Env {
    Env(SFTPClient(p => Success([1])), k => None, "bucket", p => p, NameFilter)
  }

  /** A path without an 'm' does not contain "tmp". */
  lemma ExampleNotIgnored(path: string)
    requires forall i :: 0 <= i < |path| ==> !('A' <= path[i] <= 'Z') && path[i] != 'm'
    ensures !Ignored(["tmp"], path)
  {
    ToLowerOfLowerCase("tmp");
    ToLowerOfLowerCase(path);
    assert 'm' in "tmp" && 'm' !in path;
    ContainsNeedsChar(path, "tmp", 'm');
  }

  /** A lower-case path holding "tmp" at index k is ignored by ["tmp"]. */
  lemma ExampleIgnored(path: string, k: nat)
    requires forall i :: 0 <= i < |path| ==> !('A' <= path[i] <= 'Z')
    requires k + 3 <= |path| && path[k..k + 3] == "tmp"
    ensures Ignored(["tmp"], path)
  {
    ToLowerOfLowerCase("tmp");
    ToLowerOfLowerCase(path);
    ContainsAt(path, "tmp", k);
    assert Contains(ToLower(path), ToLower(["tmp"][0]));
  }

  lemma ExampleDirNotIgnored()
    ensures !Ignored(["tmp"], "root/a")
  {
    ExampleNotIgnored("root/a");
  }

  lemma ExampleFileNotIgnored()
    ensures !Ignored(["tmp"], "root/a/x.txt")
  {
    ExampleNotIgnored("root/a/x.txt");
  }

  lemma ExampleTopFileIgnored()
    ensures Ignored(["tmp"], "root/tmpfile")
  {
    assert "root/tmpfile"[5..8] == "tmp";
    ExampleIgnored("root/tmpfile", 5);
  }

  lemma ExampleLogIgnored()
    ensures Ignored(["tmp"], "root/a/tmp.log")
  {
    assert "root/a/tmp.log"[7..10] == "tmp";
    ExampleIgnored("root/a/tmp.log", 7);
  }

  /** The base names of the two files of `root/a`. */
  lemma ExampleBaseNames()
    ensures Base("root/a/x.txt") == "x.txt"
    ensures Base("root/a/tmp.log") == "tmp.log"
  {
    assert "root/a/x.txt" == "root/a" + "/" + "x.txt";
    BaseOfChild("root/a", "x.txt");
    assert "root/a/tmp.log" == "root/a" + "/" + "tmp.log";
    BaseOfChild("root/a", "tmp.log");
  }

  /** "tmp" starts `tmp.log` but not `x.txt`. */
  lemma ExamplePrefixMatches()
    ensures !HasPrefixArray(["tmp"], Base("root/a/x.txt"))
    ensures HasPrefixArray(["tmp"], Base("root/a/tmp.log"))
  {
    ExampleBaseNames();
    var tmp := ["tmp"];
    assert tmp[0] == "tmp" && |tmp| == 1;
    assert "tmp"[0] != "x.txt"[0];
    assert "tmp" <= "tmp.log";
  }

  /** At the top level, with ignore list ["tmp"] and no prefixes, the root is
      skipped, the subfolder `root/a` passes and `root/a/tmp.log` is ignored. */
  lemma ExampleOuterFilterHead()
    ensures !Admitted(ExampleEnv(), ExampleWalk().steps[0], "root", ["tmp"], [])
    ensures Admitted(ExampleEnv(), ExampleWalk().steps[1], "root", ["tmp"], [])
    ensures !Admitted(ExampleEnv(), ExampleWalk().steps[2], "root", ["tmp"], [])
  {
    ExampleDirNotIgnored();
    ExampleLogIgnored();
  }

  /** Further on, `root/a/x.txt` passes... */
  lemma ExampleOuterAdmitsFile()
    ensures Admitted(ExampleEnv(), ExampleWalk().steps[3], "root", ["tmp"], [])
  {
    ExampleFileNotIgnored();
  }

  /** ... and `root/tmpfile` is ignored. */
  lemma ExampleOuterSkipsTopFile()
    ensures !Admitted(ExampleEnv(), ExampleWalk().steps[4], "root", ["tmp"], [])
  {
    ExampleTopFileIgnored();
  }

  /** Inside `root/a`, with the lists swapped, the root is skipped... */
  lemma ExampleInnerSkipsRoot()
    ensures !Admitted(ExampleEnv(), ExampleSubWalk().steps[0], "root/a", [], ["tmp"])
  {
  }

  /** ... `root/a/tmp.log` passes... */
  lemma ExampleInnerAdmitsLog()
    ensures Admitted(ExampleEnv(), ExampleSubWalk().steps[1], "root/a", [], ["tmp"])
  {
    ExamplePrefixMatches();
  }

  /** ... but `root/a/x.txt` does not. */
  lemma ExampleInnerFilterTail()
    ensures !Admitted(ExampleEnv(), ExampleSubWalk().steps[2], "root/a", [], ["tmp"])
  {
    ExamplePrefixMatches();
  }

  /** The recursive call on `root/a` at its last entry, which is skipped. */
  lemma ExampleInnerEnd(objects: Objects)
    ensures Run(ExampleEnv(), ExampleSubWalk(), "root/a", [], ["tmp"], 2, ["root/a/tmp.log"], objects) ==
            Outcome(Success(["root/a/tmp.log"]), objects)
  {
    var env, a := ExampleEnv(), ExampleSubWalk();
    ExampleInnerFilterTail();
    RunSkips(env, a, "root/a", [], ["tmp"], 2, ["root/a/tmp.log"], objects);
    RunEnds(env, a, "root/a", [], ["tmp"], ["root/a/tmp.log"], objects);
  }

  /** The recursive call on `root/a`, from `root/a/tmp.log` on: that file is
      copied. */
  lemma ExampleInnerCopy(objects: Objects)
    ensures Run(ExampleEnv(), ExampleSubWalk(), "root/a", [], ["tmp"], 1, [], objects) ==
            Outcome(Success(["root/a/tmp.log"]), objects[ObjectKey("bucket", "root/a/tmp.log") := [1]])
  {
    var env, a := ExampleEnv(), ExampleSubWalk();
    assert a.steps[1] == Step("root/a/tmp.log", false, false, Walk([]));
    ExampleInnerAdmitsLog();
    RunCopies(env, a, "root/a", [], ["tmp"], 1, [], objects);
    assert [] + ["root/a/tmp.log"] == ["root/a/tmp.log"];
    ExampleInnerEnd(objects[ObjectKey("bucket", "root/a/tmp.log") := [1 as bv8]]);
  }

  /** The recursive call on `root/a` copies `root/a/tmp.log` and nothing else. */
  lemma ExampleSubfolderRun()
    ensures Run(ExampleEnv(), ExampleSubWalk(), "root/a", [], ["tmp"], 0, [], map[]) ==
            Outcome(Success(["root/a/tmp.log"]), map[ObjectKey("bucket", "root/a/tmp.log") := [1]])
  {
    ExampleInnerSkipsRoot();
    RunSkips(ExampleEnv(), ExampleSubWalk(), "root/a", [], ["tmp"], 0, [], map[]);
    ExampleInnerCopy(map[]);
  }

  /** The outer walk at its last entry, `root/tmpfile`, which is skipped. */
  lemma ExampleOuterEnd(objects: Objects)
    ensures Run(ExampleEnv(), ExampleWalk(), "root", ["tmp"], [], 4, ["root/a/x.txt"], objects) ==
            Outcome(Success(["root/a/x.txt"]), objects)
  {
    var env, w := ExampleEnv(), ExampleWalk();
    ExampleOuterSkipsTopFile();
    RunSkips(env, w, "root", ["tmp"], [], 4, ["root/a/x.txt"], objects);
    RunEnds(env, w, "root", ["tmp"], [], ["root/a/x.txt"], objects);
  }

  /** The outer walk, from `root/a/x.txt` on: that file is copied and listed. */
  lemma ExampleOuterCopy(objects: Objects)
    ensures Run(ExampleEnv(), ExampleWalk(), "root", ["tmp"], [], 3, [], objects) ==
            Outcome(Success(["root/a/x.txt"]), objects[ObjectKey("bucket", "root/a/x.txt") := [1]])
  {
    var env, w := ExampleEnv(), ExampleWalk();
    assert w.steps[3] == Step("root/a/x.txt", false, false, Walk([]));
    ExampleOuterAdmitsFile();
    RunCopies(env, w, "root", ["tmp"], [], 3, [], objects);
    assert [] + ["root/a/x.txt"] == ["root/a/x.txt"];
    ExampleOuterEnd(objects[ObjectKey("bucket", "root/a/x.txt") := [1 as bv8]]);
  }

  /** The recursive call at main.go:83 passes the prefix list where the ignore
      list belongs and the other way round. With no prefixes and the ignore
      list ["tmp"], the outer walk skips `root/tmpfile` and `root/a/tmp.log`,
      whose paths contain "tmp", and copies and lists `root/a/x.txt`. Inside
      the recursive call on `root/a`, "tmp" has become a required prefix and
      nothing is ignored, so `root/a/tmp.log` is copied after all. Its copy is
      not listed, since the recursive call's list is dropped. */
  lemma SwappedListsInSubfolder()
    ensures Run(ExampleEnv(), ExampleWalk(), "root", ["tmp"], [], 0, [], map[]) ==
            Outcome(Success(["root/a/x.txt"]),
                    map[ObjectKey("bucket", "root/a/tmp.log") := [1], ObjectKey("bucket", "root/a/x.txt") := [1]])
  {
    var env, w := ExampleEnv(), ExampleWalk();
    var stored := map[ObjectKey("bucket", "root/a/tmp.log") := [1 as bv8]];
    ExampleOuterFilterHead();
    ExampleSubfolderRun();
    RunSkips(env, w, "root", ["tmp"], [], 0, [], map[]);
    RunDescends(env, w, "root", ["tmp"], [], 1, [], map[]);
    RunSkips(env, w, "root", ["tmp"], [], 2, [], stored);
    ExampleOuterCopy(stored);
  }
}
