/**
 * The callback the bot runs for each media attachment: stage the attachment in
 * the cache directory, download it, upload it to Immich, and always remove the
 * staged file. The file system is a map from paths to contents; the download,
 * the local write errors and the Immich exchange are supplied from outside.
 */
module ImmichTransfer {
  import opened Wrappers
  import opened Text
  import opened GoTime
  import opened ImmichClient
  import opened DiscordBot
  import opened ImmichResponse

  const InternalErrorStatus: string := "internal error"

  /** One line of the follow-up message: `"<file>: <status>\n"`. */
  function StatusLine(filename: string, status: string): (line: string)
    ensures HasPrefix(line, filename + ": ")
    ensures |line| > 0 && line[|line| - 1] == '\n'
  {
    filename + ": " + status + "\n"
  }

  /** A directory tree as a map from full paths to file contents. */
  class FileSystem {
    var files: map<string, seq<bv8>>

    constructor (files: map<string, seq<bv8>>)
      ensures this.files == files
    {
      this.files := files;
    }

    /** `os.Create`: creates the file or truncates an existing one, unless it fails. */
    method Create(path: string, fault: Option<Error>) returns (err: Option<Error>)
      modifies this
      ensures err == fault
      ensures files == if fault.None? then old(files)[path := []] else old(files)
    {
      err := fault;
      if fault.None? {
        files := files[path := []];
      }
    }

    /** `io.Copy` into an open file: all of `data` on success; on failure some of it may have been written. */
    method Write(path: string, data: seq<bv8>, fault: Option<Error>, partial: nat) returns (err: Option<Error>)
      requires path in files
      modifies this
      ensures err == fault
      ensures fault.None? ==> files == old(files)[path := data]
      ensures fault.Some? ==> files == old(files)[path := data[..if partial < |data| then partial else |data|]]
    {
      err := fault;
      if fault.None? {
        files := files[path := data];
      } else {
        files := files[path := data[..if partial < |data| then partial else |data|]];
      }
    }

    /** Removing a path forgets whatever was written to it. */
    static lemma RemoveOverwritten(m: map<string, seq<bv8>>, path: string, data: seq<bv8>)
      ensures m[path := data] - {path} == m - {path}
    {
    }

    /** `os.Remove` */
    method Remove(path: string)
      modifies this
      ensures files == old(files) - {path}
    {
      files := files - {path};
    }
  }

  /**
   * What the outside world does during one transfer: whether creating the staged
   * file fails, what `http.Get` answers for each URL (the body, whatever the HTTP
   * status), whether writing the body fails and after how many bytes, and the
   * Immich side of the upload.
   */
  datatype World = World(
    createError: Option<Error>,
    fetch: string -> Result<seq<bv8>, Error>,
    copyError: Option<Error>,
    copied: nat,
    upload: Env<AssetUploadResponse>)

  /** The outside effects of one callback, in the order they happen. */
  datatype Action = CreateFile(path: string) | Fetch(url: string) | CopyBody(path: string)
                  | UploadFile(path: string) | RemoveFile(path: string)

  /**
   * The result of one callback: the status line, the error, the upload request if
   * one was sent, and the actions performed.
   */
  datatype Transfer = Transfer(status: string, err: Option<Error>, uploaded: Option<Request>, actions: seq<Action>)

  /** The four steps of a transfer, in order. */
  function Steps(fullPath: string, url: string): seq<Action> {
    [CreateFile(fullPath), Fetch(url), CopyBody(fullPath), UploadFile(fullPath)]
  }

  /** How far a transfer gets before its first local failure. */
  datatype Stage = CreateFailed | FetchFailed | CopyFailed | Staged

  function Reached(world: World, url: string): (s: Stage)
    ensures s == Staged <==> world.createError.None? && world.fetch(url).Success? && world.copyError.None?
    ensures s == CreateFailed <==> world.createError.Some?
  {
    if world.createError.Some? then CreateFailed
    else if world.fetch(url).Failure? then FetchFailed
    else if world.copyError.Some? then CopyFailed
    else Staged
  }

  /** The outside effects of a transfer that reached `stage`, in the order they happen. */
  function Performed(stage: Stage, fullPath: string, url: string): seq<Action> {
    match stage
    case CreateFailed => [CreateFile(fullPath)]
    case FetchFailed => [CreateFile(fullPath), Fetch(url), RemoveFile(fullPath)]
    case CopyFailed => [CreateFile(fullPath), Fetch(url), CopyBody(fullPath), RemoveFile(fullPath)]
    case Staged => [CreateFile(fullPath), Fetch(url), CopyBody(fullPath), UploadFile(fullPath), RemoveFile(fullPath)]
  }

  /**
   * The order of a callback's effects: a failed create does nothing else; once the
   * file exists, the steps run in order up to the first failure and the staged
   * file is removed last; the upload happens exactly when the staging succeeded.
   */
  lemma ActionOrder(stage: Stage, fullPath: string, url: string)
    ensures var a := Performed(stage, fullPath, url);
            && (stage == CreateFailed ==> a == [CreateFile(fullPath)])
            && (stage != CreateFailed ==>
                  && 3 <= |a| <= 5
                  && a[..|a| - 1] == Steps(fullPath, url)[..|a| - 1]
                  && a[|a| - 1] == RemoveFile(fullPath))
            && (UploadFile(fullPath) in a <==> stage == Staged)
  {
    var a := Performed(stage, fullPath, url);
    if stage != Staged {
      assert forall k :: 0 <= k < |a| ==> a[k] != UploadFile(fullPath);
    }
  }

  /**
   * The callback's result as a function of its inputs. Each failing step gives the
   * "internal error" status line and its own error prefix; a finished upload gives
   * the server's status for the file.
   */
  function CallbackOutcome(c: Client, cachePath: string, filename: string, url: string,
                           messageTime: Time, world: World): (t: Transfer)
    ensures t.actions == Performed(Reached(world, url), PathJoin(cachePath, filename), url)
    ensures t.err.None? ==> Reached(world, url) == Staged
    ensures Reached(world, url) == Staged ==>
              var fullPath := PathJoin(cachePath, filename);
              var u := UploadOutcome(c, map[fullPath := world.fetch(url).value], fullPath,
                                     messageTime, messageTime, world.upload);
              && t.uploaded == u.sent
              && t.err == (if u.result.Failure? then Some("failed to upload asset: " + u.result.error) else None)
              && (u.result.Success? ==> t.status == StatusLine(filename, u.result.value.status))
    ensures t.err.Some? ==> t.status == StatusLine(filename, InternalErrorStatus)
    ensures world.createError.Some? ==>
              t.err == Some("failed to create file: " + world.createError.value) && t.uploaded.None?
    ensures world.createError.None? && world.fetch(url).Failure? ==>
              t.err == Some("failed http get: " + world.fetch(url).error) && t.uploaded.None?
    ensures world.createError.None? && world.fetch(url).Success? && world.copyError.Some? ==>
              t.err == Some("failed to write image: " + world.copyError.value) && t.uploaded.None?
  {
    var fullPath := PathJoin(cachePath, filename);
    var failed := StatusLine(filename, InternalErrorStatus);
    var stage := Reached(world, url);
    var actions := Performed(stage, fullPath, url);
    match stage
    case CreateFailed =>
      Transfer(failed, Some("failed to create file: " + world.createError.value), None, actions)
    case FetchFailed =>
      Transfer(failed, Some("failed http get: " + world.fetch(url).error), None, actions)
    case CopyFailed =>
      Transfer(failed, Some("failed to write image: " + world.copyError.value), None, actions)
    case Staged =>
      var u := UploadOutcome(c, map[fullPath := world.fetch(url).value], fullPath, messageTime, messageTime, world.upload);
      if u.result.Failure? then
        Transfer(failed, Some("failed to upload asset: " + u.result.error), u.sent, actions)
      else
        Transfer(StatusLine(filename, u.result.value.status), None, u.sent, actions)
  }

  /** An upload reads only the file it is given. */
  lemma UploadOutcomeReadsOnePath(c: Client, files1: map<string, seq<bv8>>, files2: map<string, seq<bv8>>,
                                  path: string, created: Time, modified: Time, env: Env<AssetUploadResponse>)
    requires path in files1 && path in files2 && files1[path] == files2[path]
    ensures UploadOutcome(c, files1, path, created, modified, env) == UploadOutcome(c, files2, path, created, modified, env)
  {
  }

  /**
   * The closure returned by `createImmichCallback`: stage, download, copy, upload,
   * and remove the staged file on every path after it was created.
   */
  method ImmichCallback(fs: FileSystem, c: Client, cachePath: string, filename: string, url: string,
                        messageTime: Time, world: World)
    returns (status: string, err: Option<Error>, uploaded: Option<Request>, actions: seq<Action>)
    modifies fs
    ensures Transfer(status, err, uploaded, actions) == CallbackOutcome(c, cachePath, filename, url, messageTime, world)
    ensures world.createError.Some? ==> fs.files == old(fs.files)
    ensures world.createError.None? ==> fs.files == old(fs.files) - {PathJoin(cachePath, filename)}
  {
    var fullPath := PathJoin(cachePath, filename);
    ghost var before := fs.files;
    var e := fs.Create(fullPath, world.createError);
    if e.Some? {
      actions := [CreateFile(fullPath)];
      return StatusLine(filename, InternalErrorStatus), Some("failed to create file: " + e.value), None, actions;
    }
    var response := world.fetch(url);
    if response.Failure? {
      FileSystem.RemoveOverwritten(before, fullPath, []);
      fs.Remove(fullPath);
      actions := [CreateFile(fullPath), Fetch(url), RemoveFile(fullPath)];
      return StatusLine(filename, InternalErrorStatus), Some("failed http get: " + response.error), None, actions;
    }
    e := fs.Write(fullPath, response.value, world.copyError, world.copied);
    FileSystem.RemoveOverwritten(before, fullPath, []);
    FileSystem.RemoveOverwritten(before[fullPath := []], fullPath, fs.files[fullPath]);
    if e.Some? {
      fs.Remove(fullPath);
      actions := [CreateFile(fullPath), Fetch(url), CopyBody(fullPath), RemoveFile(fullPath)];
      return StatusLine(filename, InternalErrorStatus), Some("failed to write image: " + e.value), None, actions;
    }
    UploadOutcomeReadsOnePath(c, fs.files, map[fullPath := response.value], fullPath, messageTime, messageTime, world.upload);
    var result, sent := UploadAsset(c, fs.files, fullPath, messageTime, messageTime, world.upload);
    fs.Remove(fullPath);
    actions := [CreateFile(fullPath), Fetch(url), CopyBody(fullPath), UploadFile(fullPath), RemoveFile(fullPath)];
    uploaded := sent;
    if result.Failure? {
      status, err := StatusLine(filename, InternalErrorStatus), Some("failed to upload asset: " + result.error);
    } else {
      status, err := StatusLine(filename, result.value.status), None;
    }
  }

  /**
   * The upload that a callback sends names the attachment by its own file name
   * (for a name without slashes) and carries the downloaded bytes and the message
   * time as both creation and modification time.
   */
  lemma UploadedAsAttachment(c: Client, cachePath: string, filename: string, url: string,
                             messageTime: Time, world: World)
    requires filename != "" && '/' !in filename
    ensures var sent := CallbackOutcome(c, cachePath, filename, url, messageTime, world).uploaded;
            sent.Some? ==>
              && world.fetch(url).Success?
              && sent.value == UploadRequest(c, filename, world.fetch(url).value, messageTime, messageTime,
                                             world.upload.boundary)
  {
    BaseOfJoin(cachePath, filename);
  }

  /**
   * An upload answer that carries no body, or is 204 No Content, still counts as a
   * success: the callback reports the empty status for the file and no error.
   */
  lemma UntouchedAnswerEmptyStatus(c: Client, cachePath: string, filename: string, url: string,
                                   messageTime: Time, world: World)
    ensures var t := CallbackOutcome(c, cachePath, filename, url, messageTime, world);
            var answer := if t.uploaded.Some? then world.upload.send(t.uploaded.value) else Failure("");
            answer.Success? && (answer.value.body.None? || answer.value.statusCode == StatusNoContent) ==>
              t.err.None? && t.status == StatusLine(filename, "")
  {
    var t := CallbackOutcome(c, cachePath, filename, url, messageTime, world);
    if t.uploaded.Some? {
      assert Reached(world, url) == Staged;
      var fullPath := PathJoin(cachePath, filename);
      var u := UploadOutcome(c, map[fullPath := world.fetch(url).value], fullPath, messageTime, messageTime, world.upload);
      assert u.sent == t.uploaded;
      var answer := world.upload.send(u.sent.value);
      if answer.Success? && (answer.value.body.None? || answer.value.statusCode == StatusNoContent) {
        UntouchedAnswerIsZero(u.sent.value, ZeroAsset, world.upload, answer.value);
        assert u.result == Success(ZeroAsset);
      }
    }
  }

  /** `createImmichCallback`: the callback over a fixed client and cache directory. */
  function CreateImmichCallback(c: Client, cachePath: string, world: (string, string, Time) -> World): Callback
  {
    (filename: string, url: string, t: Time) =>
      var r := CallbackOutcome(c, cachePath, filename, url, t, world(filename, url, t));
      (r.status, r.err)
  }
}
