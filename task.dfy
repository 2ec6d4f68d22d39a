/**
 * The queued-storage transfer tasks: build the tileset and the thumbnail of an
 * uploaded image, copy its files from the local to the remote storage, and, in
 * the deleting variant, remove the local original once the copy succeeded.
 */
module Task {
  import opened Wrappers
  import opened Exceptions
  import opened PosixPath
  import opened Tileset

  /** A storage backend: file contents by name. */
  class Store {
    var files: map<string, string>

    constructor (files: map<string, string>)
      ensures this.files == files
    {
      this.files := files;
    }

    /** `open(name)`: a name the storage does not hold raises. */
    method Open(path: string) returns (r: Result<string, Exception>)
      ensures r == if path in files then Success(files[path]) else Failure(IOError)
    {
      if path in files {
        r := Success(files[path]);
      } else {
        r := Failure(IOError);
      }
    }

    /** `save(name, content)`: the transport to the backend fails for the names in `unreachable`. */
    method Save(path: string, content: string, unreachable: set<string>) returns (o: Outcome<Exception>)
      modifies this
      ensures path in unreachable ==> o == Fail(TransportError) && files == old(files)
      ensures path !in unreachable ==> o == Pass && files == old(files)[path := content]
    {
      if path in unreachable {
        o := Fail(TransportError);
      } else {
        files := files[path := content];
        o := Pass;
      }
    }

    /** `delete(name)`. */
    method Delete(path: string)
      modifies this
      ensures files == old(files) - {path}
    {
      files := files - {path};
    }
  }

  /** What the task's logger receives. */
  datatype LogEntry = Error(message: string) | Traceback(error: Exception)

  const TilesetFailed: string := "Unable to create a tileset."
  const ThumbnailFailed: string := "Unable to create a thumbnail."

  function SaveFailed(path: string): string {
    "Unable to save '" + path + "' to remote storage. About to retry."
  }

  /** `remote.save(path, local.open(path))`: what is written, or what is raised first. */
  function CopyAttempt(path: string, local: map<string, string>, unreachable: set<string>): (r: Result<string, Exception>)
    ensures r.Success? <==> path in local && path !in unreachable
    ensures r.Success? ==> r.value == local[path]
    ensures path !in local ==> r == Failure(IOError)
    ensures path in local && path in unreachable ==> r == Failure(TransportError)
  {
    if path !in local then Failure(IOError)
    else if path in unreachable then Failure(TransportError)
    else Success(local[path])
  }

  /**
   * The value `transfer` returns for the file list: `None` when there is no file,
   * otherwise whether the copy of the first file went through.
   */
  function TransferResult(files: seq<string>, local: map<string, string>, unreachable: set<string>): (r: Option<bool>)
    ensures r.None? <==> files == []
    ensures r == Some(true) <==> files != [] && CopyAttempt(files[0], local, unreachable).Success?
    ensures r == Some(false) <==> files != [] && CopyAttempt(files[0], local, unreachable).Failure?
  {
    if files == [] then None else Some(CopyAttempt(files[0], local, unreachable).Success?)
  }

  /** The remote storage after `transfer`: at most the first file is copied. */
  function RemoteAfter(files: seq<string>, local: map<string, string>, remote: map<string, string>,
                       unreachable: set<string>): (r: map<string, string>)
    ensures forall p :: p in r <==> p in remote || (TransferResult(files, local, unreachable) == Some(true) && p == files[0])
    ensures forall p :: p in remote && (files == [] || p != files[0]) ==> r[p] == remote[p]
    ensures TransferResult(files, local, unreachable) == Some(true) ==> r[files[0]] == local[files[0]]
  {
    if files != [] && CopyAttempt(files[0], local, unreachable).Success? then
      remote[files[0] := local[files[0]]]
    else remote
  }

  /** The log lines of the two tool runs: one per exit status of exactly 1. */
  function ToolLog(tilesetStatus: int, thumbnailStatus: int): seq<LogEntry> {
    (if tilesetStatus == 1 then [Error(TilesetFailed)] else []) +
    (if thumbnailStatus == 1 then [Error(ThumbnailFailed)] else [])
  }

  /** The log lines of the copy: an error and its traceback when the first file fails. */
  function CopyLog(files: seq<string>, local: map<string, string>, unreachable: set<string>): seq<LogEntry> {
    if files != [] && CopyAttempt(files[0], local, unreachable).Failure? then
      [Error(SaveFailed(files[0])), Traceback(CopyAttempt(files[0], local, unreachable).error)]
    else []
  }

  /** The log lines of one run. */
  function TransferLog(tilesetStatus: int, thumbnailStatus: int, files: seq<string>,
                       local: map<string, string>, unreachable: set<string>): seq<LogEntry>
  {
    ToolLog(tilesetStatus, thumbnailStatus) + CopyLog(files, local, unreachable)
  }

  /**
   * The loop of `transfer` over the tileset files: copy the first one and return
   * `True`, or log the failure and return `False`; no file at all returns `None`.
   */
  method CopyFirst(files: seq<string>, local: Store, remote: Store, unreachable: set<string>)
    returns (result: Option<bool>, log: seq<LogEntry>)
    requires local != remote
    modifies remote
    ensures result == TransferResult(files, local.files, unreachable)
    ensures remote.files == RemoteAfter(files, local.files, old(remote.files), unreachable)
    ensures log == CopyLog(files, local.files, unreachable)
  {
    log := [];
    for i := 0 to |files|
      invariant i == 0 && remote.files == old(remote.files) && log == []
    {
      var path := files[i];
      ghost var attempt := CopyAttempt(path, local.files, unreachable);
      var content := local.Open(path);
      var saved: Outcome<Exception> := Pass;
      if content.Success? {
        saved := remote.Save(path, content.value, unreachable);
      }
      var failure := if content.Failure? then Fail(content.error) else saved;
      assert failure.Pass? <==> attempt.Success?;
      if failure.Pass? {
        return Some(true), log;
      }
      log := log + [Error(SaveFailed(path)), Traceback(failure.error)];
      assert failure.error == attempt.error;
      return Some(false), log;
    }
    result := None;
  }

  /**
   * The first half of `transfer`: `create_tileset(name)`, then `create_thumbnail(name)`,
   * each logged when its exit status is exactly 1.
   */
  method RunTools(name: string, run: seq<string> -> int, thumbSize: int)
    returns (commands: seq<seq<string>>, log: seq<LogEntry>)
    ensures commands == [TilesetCommand(name), ThumbnailCommand(name, thumbSize)]
    ensures log == ToolLog(run(commands[0]), run(commands[1]))
  {
    var tileset := TilesetCommand(name);
    var tilesetStatus := run(tileset);
    log := [];
    if tilesetStatus == 1 {
      log := [Error(TilesetFailed)];
    }
    var thumbnail := ThumbnailCommand(name, thumbSize);
    var thumbnailStatus := run(thumbnail);
    if thumbnailStatus == 1 {
      log := log + [Error(ThumbnailFailed)];
    }
    commands := [tileset, thumbnail];
  }

  /**
   * `TileAndTransfer.transfer(name, local, remote)`: run the tileset tool, then the
   * thumbnail tool, logging an exit status of 1 and carrying on either way; then
   * copy the files under the image's directory, returning at the first one.
   * `run` gives the exit status of a command line, `walk` the directory listing.
   */
  method TileAndTransfer(name: string, local: Store, remote: Store, run: seq<string> -> int, thumbSize: int,
                         walk: string -> seq<WalkEntry>, unreachable: set<string>)
    returns (result: Option<bool>, commands: seq<seq<string>>, log: seq<LogEntry>)
    requires local != remote
    modifies remote
    ensures commands == [TilesetCommand(name), ThumbnailCommand(name, thumbSize)]
    ensures var files := WalkFiles(walk(Split(name).0));
      result == TransferResult(files, local.files, unreachable) &&
      remote.files == RemoteAfter(files, local.files, old(remote.files), unreachable) &&
      log == TransferLog(run(commands[0]), run(commands[1]), files, local.files, unreachable)
  {
    var toolLog;
    commands, toolLog := RunTools(name, run, thumbSize);
    var files := TilesetFiles(name, walk);
    var copyLog;
    result, copyLog := CopyFirst(files, local, remote, unreachable);
    log := toolLog + copyLog;
  }

  /** The Python classes whose `transfer` the deleting variant may reach. */
  datatype TaskClass = Transfer | TransferAndDelete | TileAndTransferClass | TileTransferAndDeleteClass

  /** Method resolution order of each class, restricted to classes that define `transfer`. */
  function Mro(c: TaskClass): (r: seq<TaskClass>)
    ensures |r| >= 1 && r[0] == c && r[|r| - 1] == Transfer
  {
    match c
    case Transfer => [Transfer]
    case TransferAndDelete => [TransferAndDelete, Transfer]
    case TileAndTransferClass => [TileAndTransferClass, Transfer]
    case TileTransferAndDeleteClass => [TileTransferAndDeleteClass, TileAndTransferClass, Transfer]
  }

  function Position(s: seq<TaskClass>, c: TaskClass): (r: int)
    ensures -1 <= r < |s|
    ensures r >= 0 ==> s[r] == c
    ensures r < 0 ==> c !in s
  {
    if s == [] then -1
    else if s[0] == c then 0
    else var k := Position(s[1..], c); if k < 0 then -1 else k + 1
  }

  /**
   * `super(start, obj).transfer`: the class after `start` in the order of the
   * object's class; an object that is not an instance of `start` raises TypeError,
   * and when no later class defines `transfer` the lookup raises AttributeError.
   */
  function SuperTransfer(start: TaskClass, objClass: TaskClass): (r: Result<TaskClass, Exception>)
    ensures start !in Mro(objClass) ==> r == Failure(SuperTypeError)
    ensures var mro, k := Mro(objClass), Position(Mro(objClass), start);
      0 <= k < |mro| - 1 ==> r == Success(mro[k + 1])
    ensures start == Transfer ==> r == Failure(AttributeError)
  {
    var mro := Mro(objClass);
    var k := Position(mro, start);
    if k < 0 then Failure(SuperTypeError)
    else if k + 1 < |mro| then Success(mro[k + 1])
    else Failure(AttributeError)
  }

  /** As written, the deleting variant names a class its instances do not inherit from. */
  lemma SuperAsWrittenRaises()
    ensures SuperTransfer(TransferAndDelete, TileTransferAndDeleteClass) == Failure(SuperTypeError)
  {
    assert TransferAndDelete !in Mro(TileTransferAndDeleteClass);
  }

  /** Naming its own class reaches the tile-and-transfer task, as the docstring describes. */
  lemma SuperCorrectedReachesTileAndTransfer()
    ensures SuperTransfer(TileTransferAndDeleteClass, TileTransferAndDeleteClass) == Success(TileAndTransferClass)
  {
    assert Position(Mro(TileTransferAndDeleteClass), TileTransferAndDeleteClass) == 0;
  }

  /**
   * `TileTransferAndDelete.transfer` as written: the `super` call raises before
   * any tool runs, nothing is copied and nothing is deleted.
   */
  method TileTransferAndDeleteAsWritten(name: string, local: Store, remote: Store)
    returns (r: Result<Option<bool>, Exception>)
    ensures r == Failure(SuperTypeError)
  {
    var parent := SuperTransfer(TransferAndDelete, TileTransferAndDeleteClass);
    SuperAsWrittenRaises();
    r := Failure(parent.error);
  }

  /**
   * `TileTransferAndDelete.transfer` with `super(TileTransferAndDelete, self)`: the
   * tile-and-transfer task, then deletion of `name`, and only `name`, from the local
   * storage when it returned `True`; the result is passed on unchanged.
   */
  method TileTransferAndDelete(name: string, local: Store, remote: Store, run: seq<string> -> int, thumbSize: int,
                               walk: string -> seq<WalkEntry>, unreachable: set<string>)
    returns (result: Option<bool>, commands: seq<seq<string>>, log: seq<LogEntry>)
    requires local != remote
    modifies local, remote
    ensures var files := WalkFiles(walk(Split(name).0));
      result == TransferResult(files, old(local.files), unreachable) &&
      remote.files == RemoteAfter(files, old(local.files), old(remote.files), unreachable) &&
      log == TransferLog(run(TilesetCommand(name)), run(ThumbnailCommand(name, thumbSize)), files, old(local.files), unreachable)
    ensures commands == [TilesetCommand(name), ThumbnailCommand(name, thumbSize)]
    ensures local.files == if result == Some(true) then old(local.files) - {name} else old(local.files)
  {
    result, commands, log := TileAndTransfer(name, local, remote, run, thumbSize, walk, unreachable);
    if result == Some(true) {
      local.Delete(name);
    }
  }

  // ----- What a transfer guarantees -----

  /** Only the first file can reach the remote storage; every other name keeps its remote content. */
  lemma OnlyFirstFileCopied(files: seq<string>, local: map<string, string>, remote: map<string, string>,
                            unreachable: set<string>, p: string)
    requires files != [] && p != files[0]
    ensures (p in RemoteAfter(files, local, remote, unreachable) <==> p in remote)
    ensures p in remote ==> RemoteAfter(files, local, remote, unreachable)[p] == remote[p]
  {
  }

  /** A successful transfer leaves the remote copy of the first file equal to the local one. */
  lemma SuccessCopiesFirstFile(files: seq<string>, local: map<string, string>, remote: map<string, string>,
                               unreachable: set<string>)
    requires TransferResult(files, local, unreachable) == Some(true)
    ensures files[0] in local && files[0] in RemoteAfter(files, local, remote, unreachable)
    ensures RemoteAfter(files, local, remote, unreachable)[files[0]] == local[files[0]]
  {
  }

  /** A failed or empty transfer writes nothing to the remote storage. */
  lemma NoSuccessNoWrite(files: seq<string>, local: map<string, string>, remote: map<string, string>,
                         unreachable: set<string>)
    requires TransferResult(files, local, unreachable) != Some(true)
    ensures RemoteAfter(files, local, remote, unreachable) == remote
  {
  }

  /** The tool failures are logged exactly when their status is 1, and a failed copy adds an error and its traceback. */
  lemma LogShape(tilesetStatus: int, thumbnailStatus: int, files: seq<string>,
                 local: map<string, string>, unreachable: set<string>)
    ensures var log := TransferLog(tilesetStatus, thumbnailStatus, files, local, unreachable);
      (Error(TilesetFailed) in log <==> tilesetStatus == 1) &&
      (Error(ThumbnailFailed) in log <==> thumbnailStatus == 1) &&
      |log| == (if tilesetStatus == 1 then 1 else 0) + (if thumbnailStatus == 1 then 1 else 0) +
               (if TransferResult(files, local, unreachable) == Some(false) then 2 else 0)
  {
  }
}
