/** Staged uploads over SFTP (remote_cmd/core/ssh_client.py, upload_file and
    _commit_remote_upload): the file is written to a private staging directory and moved
    over its destination only when it is complete. Any operation may fail, and then has no
    effect, except that a failed transfer leaves a partial staged file. */
module Upload {
  import opened Options

  type Path = string

  datatype Node =
    | File(content: string, mode: Option<nat>)
    | Link(to: Path)
    | Dir

  /** The errors an operation may raise, by the handlers that tell them apart: OSError
      (with errno ENOENT or not), a timeout (an OSError too), SSHException, EOFError, and
      what is not an Exception at all. */
  datatype Fault = OsError(enoent: bool) | Timeout | SshError | Eof | Interrupted

  predicate IsOsError(f: Fault) {
    f.OsError? || f.Timeout?
  }

  /** except (OSError, paramiko.SSHException) */
  predicate IsHandled(f: Fault) {
    IsOsError(f) || f.SshError?
  }

  function At(files: map<Path, Node>, path: Path): Option<Node> {
    if path in files then Some(files[path]) else None
  }

  function Moved(files: map<Path, Node>, source: Path, target: Path): map<Path, Node>
    requires source in files
  {
    (files - {source})[target := files[source]]
  }

  /** rename refuses to replace anything, posix_rename replaces a file. */
  function RenameError(files: map<Path, Node>, source: Path, target: Path, replace: bool, fault: Option<Fault>)
    : Option<Fault>
  {
    if fault.Some? then fault
    else if source !in files then Some(OsError(true))
    else if target in files && !(replace && !files[target].Dir?) then Some(OsError(false))
    else None
  }

  /** `path` lies inside directory `dir`. */
  predicate Under(path: Path, dir: Path) {
    |dir| < |path| && path[..|dir|] == dir && path[|dir|] == '/'
  }

  predicate EmptyDir(files: map<Path, Node>, dir: Path) {
    forall path :: path in files ==> !Under(path, dir)
  }

  /** The remote file system as the client sees it; `history` collects the states it goes
      through. */
  class Remote {
    var files: map<Path, Node>
    ghost var history: seq<map<Path, Node>>

    constructor (files: map<Path, Node>)
      ensures this.files == files && history == [files]
    {
      this.files := files;
      history := [files];
    }

    method Become(next: map<Path, Node>)
      modifies this
      ensures files == next && history == old(history) + [next]
    {
      files := next;
      history := history + [next];
    }

    method Rename(source: Path, target: Path, replace: bool, fault: Option<Fault>) returns (error: Option<Fault>)
      modifies this
      ensures error == RenameError(old(files), source, target, replace, fault)
      ensures error.None? ==> source in old(files) && files == Moved(old(files), source, target)
      ensures error.Some? ==> files == old(files)
      ensures history == old(history) + [files]
    {
      error := RenameError(files, source, target, replace, fault);
      Become(if error.None? then Moved(files, source, target) else files);
    }

    method Chmod(path: Path, mode: nat, fault: Option<Fault>) returns (error: Option<Fault>)
      modifies this
      ensures history == old(history) + [files]
      ensures error == if fault.Some? then fault
                       else if path !in old(files) || !old(files)[path].File? then Some(OsError(true)) else None
      ensures files == if error.None? then old(files)[path := File(old(files)[path].content, Some(mode))] else old(files)
    {
      if fault.Some? || path !in files || !files[path].File? {
        error := if fault.Some? then fault else Some(OsError(true));
        Become(files);
      } else {
        error := None;
        Become(files[path := File(files[path].content, Some(mode))]);
      }
    }

    method Remove(path: Path, fault: Option<Fault>) returns (error: Option<Fault>)
      modifies this
      ensures error == if fault.Some? then fault
                       else if path !in old(files) then Some(OsError(true))
                       else if old(files)[path].Dir? then Some(OsError(false)) else None
      ensures files == if error.None? then old(files) - {path} else old(files)
      ensures history == old(history) + [files]
    {
      error := if fault.Some? then fault
               else if path !in files then Some(OsError(true))
               else if files[path].Dir? then Some(OsError(false)) else None;
      Become(if error.None? then files - {path} else files);
    }

    method RemoveDir(path: Path, fault: Option<Fault>) returns (error: Option<Fault>)
      modifies this
      ensures error == if fault.Some? then fault
                       else if path !in old(files) then Some(OsError(true))
                       else if !old(files)[path].Dir? || !EmptyDir(old(files), path) then Some(OsError(false)) else None
      ensures files == if error.None? then old(files) - {path} else old(files)
      ensures history == old(history) + [files]
    {
      error := if fault.Some? then fault
               else if path !in files then Some(OsError(true))
               else if !files[path].Dir? || !EmptyDir(files, path) then Some(OsError(false)) else None;
      Become(if error.None? then files - {path} else files);
    }
  }

  /** What may fail while committing, in the order of the operations. */
  datatype CommitFaults = CommitFaults(
    chmod: Option<Fault>,
    posixRename: Option<Fault>,
    rename: Option<Fault>,
    lstat: Option<Fault>,
    backUp: Option<Fault>,
    replace: Option<Fault>,
    restore: Option<Fault>,
    removeBackup: Option<Fault>)

  /** The target is as before, or holds the complete new file, or, between two renames, is
      absent while what was there is in the backup. */
  predicate Whole(files: map<Path, Node>, target: Path, backup: Path, before: Option<Node>, content: string) {
    || At(files, target) == before
    || (target in files && files[target].File? && files[target].content == content)
    || (At(files, target) == None && before.Some? && At(files, backup) == before)
  }

  /** From position `from` on, every state of the history is whole. */
  ghost predicate AlwaysWhole(history: seq<map<Path, Node>>, from: nat, target: Path, backup: Path,
                              before: Option<Node>, content: string) {
    forall i :: from <= i < |history| ==> Whole(history[i], target, backup, before, content)
  }

  /** `now` differs from `was` at most at the three paths. */
  ghost predicate OnlyTouches(was: map<Path, Node>, now: map<Path, Node>, a: Path, b: Path, c: Path) {
    forall path :: path != a && path != b && path != c ==> At(now, path) == At(was, path)
  }

  /** How a commit ends. */
  datatype End =
    | Committed
    | Untouched(fault: Fault)
    | Stranded(fault: Fault)
    | Unnoticed(fault: Fault)
    | Late(fault: Fault)

  /** Committed: the new file is in place, with the given mode. Untouched: an error, and
      the target is as before. Stranded: an error, the target is gone and what was there is
      in the backup. Unnoticed: an error although the new file is in place; what was there
      is in the backup. */
  ghost predicate Ended(end: End, was: map<Path, Node>, now: map<Path, Node>, staged: Path, target: Path, backup: Path,
                        content: string, mode: Option<nat>)
  {
    && OnlyTouches(was, now, staged, target, backup)
    && match end
       case Committed =>
         At(now, target) == Some(File(content, mode)) && staged !in now
       case Untouched(_) => At(now, target) == At(was, target)
       case Stranded(_) => At(now, target) == None && At(now, backup) == At(was, target) != None
       case Unnoticed(_) =>
         At(now, target) == Some(File(content, mode)) && At(now, backup) == At(was, target) != None
       case Late(_) => At(now, target) == Some(File(content, mode))
  }

  // ------------------------------------------- how a commit ends, from its inputs

  /** Whether each of the first two attempts to move the staged file raises; `node` is what
      is at the target. */
  function PosixError(node: Option<Node>, f: CommitFaults): Option<Fault> {
    if f.posixRename.Some? then f.posixRename else if node == Some(Dir) then Some(OsError(false)) else None
  }

  function PlainError(node: Option<Node>, f: CommitFaults): Option<Fault> {
    if f.rename.Some? then f.rename else if node.Some? then Some(OsError(false)) else None
  }

  predicate Handles(error: Option<Fault>) {
    error.Some? && IsHandled(error.value)
  }

  /** The commit gets as far as the two renames. */
  predicate ModeSet(existingMode: Option<nat>, f: CommitFaults) {
    existingMode.Some? ==> f.chmod.None?
  }

  /** Both renames fail with handled errors over an existing file whose mode is known, or a
      link: the commit goes on to keep a backup. */
  predicate FallsBack(node: Option<Node>, existingMode: Option<nat>, existed: bool, f: CommitFaults) {
    && ModeSet(existingMode, f) && Handles(PosixError(node, f)) && Handles(PlainError(node, f))
    && existed && f.lstat.None? && node.Some? && !node.value.Dir? && (node.value.File? ==> node.value.mode.Some?)
  }

  predicate Strands(node: Option<Node>, existingMode: Option<nat>, existed: bool, f: CommitFaults) {
    FallsBack(node, existingMode, existed, f) && f.backUp.None? && f.replace.Some? && f.restore.Some?
  }

  predicate Unnotices(node: Option<Node>, existingMode: Option<nat>, existed: bool, f: CommitFaults) {
    && FallsBack(node, existingMode, existed, f) && f.backUp.None? && f.replace.None?
    && f.removeBackup.Some? && !IsHandled(f.removeBackup.value)
  }

  predicate Commits(node: Option<Node>, existingMode: Option<nat>, existed: bool, f: CommitFaults) {
    || (ModeSet(existingMode, f)
        && (PosixError(node, f).None? || (Handles(PosixError(node, f)) && PlainError(node, f).None?)))
    || (FallsBack(node, existingMode, existed, f) && f.backUp.None? && f.replace.None?
        && (f.removeBackup.None? || IsHandled(f.removeBackup.value)))
  }

  /** The three conditions in terms of the faults and of what is at the target, for a commit
      whose mode could be set: it is over when one of the two plain renames succeeds; over an
      existing file whose mode is known, or a link, the backup, the second rename and its
      restoration decide. */
  lemma ConditionsSpelledOut(node: Option<Node>, existingMode: Option<nat>, f: CommitFaults)
    requires existingMode.None? || f.chmod.None?
    ensures f.posixRename.None? && node != Some(Dir) ==> Commits(node, existingMode, true, f) && Commits(node, existingMode, false, f)
    ensures node.None? && f.posixRename == Some(SshError) && f.rename.None? ==> Commits(node, existingMode, false, f)
    ensures f.posixRename == Some(Eof) || f.posixRename == Some(Interrupted) ==> !Commits(node, existingMode, true, f)
    ensures !Strands(node, existingMode, false, f) && !Unnotices(node, existingMode, false, f)
    ensures node.Some? && node.value.File? && node.value.mode.Some? && f.rename.None? && f.lstat.None? &&
            f.posixRename.Some? && (f.posixRename.value.OsError? || f.posixRename.value.Timeout? || f.posixRename.value.SshError?) ==>
              && (Strands(node, existingMode, true, f) <==> f.backUp.None? && f.replace.Some? && f.restore.Some?)
              && (Unnotices(node, existingMode, true, f) <==>
                    f.backUp.None? && f.replace.None? && (f.removeBackup == Some(Eof) || f.removeBackup == Some(Interrupted)))
              && (Commits(node, existingMode, true, f) <==>
                    f.backUp.None? && f.replace.None? && f.removeBackup != Some(Eof) && f.removeBackup != Some(Interrupted))
  {
  }

  /** The fallback for servers without posix_rename: keep what is at the target under a
      backup name until the staged file is in place. */
  method ReplaceWithBackup(remote: Remote, staged: Path, target: Path, backup: Path, f: CommitFaults)
      returns (end: End)
    requires staged in remote.files && remote.files[staged].File? && target in remote.files
    requires !remote.files[target].Dir?
    requires backup !in remote.files && staged != target && staged != backup && target != backup
    modifies remote
    ensures old(remote.history) <= remote.history && |remote.history| > |old(remote.history)|
    ensures AlwaysWhole(remote.history, |old(remote.history)|, target, backup, At(old(remote.files), target),
                        old(remote.files)[staged].content)
    ensures Ended(end, old(remote.files), remote.files, staged, target, backup, old(remote.files)[staged].content,
                  old(remote.files)[staged].mode)
    ensures end.Stranded? <==> f.backUp.None? && f.replace.Some? && f.restore.Some?
    ensures end.Unnoticed? <==> f.backUp.None? && f.replace.None? &&
                                f.removeBackup.Some? && !IsHandled(f.removeBackup.value)
    ensures end.Committed? <==> f.backUp.None? && f.replace.None? &&
                                (f.removeBackup.None? || IsHandled(f.removeBackup.value))
    ensures end.Committed? ==> (backup in remote.files <==> f.removeBackup.Some?)
    ensures !end.Late? && At(remote.files, staged) != Some(Dir)
  {
    var backupError := remote.Rename(target, backup, false, f.backUp);
    if backupError.Some? {
      return Untouched(backupError.value);
    }
    var error := remote.Rename(staged, target, false, f.replace);
    if error.Some? {
      var restoreError := remote.Rename(backup, target, false, f.restore);
      return if restoreError.None? then Untouched(error.value)
             else Stranded(if restoreError == Some(Interrupted) then Interrupted else error.value);
    }
    var removeError := remote.Remove(backup, f.removeBackup);
    end := if removeError.Some? && !IsHandled(removeError.value) then Unnoticed(removeError.value) else Committed;
  }

  /** _commit_remote_upload */
  method CommitUpload(remote: Remote, staged: Path, target: Path, existingMode: Option<nat>, existed: bool,
                      backup: Path, f: CommitFaults) returns (end: End)
    requires staged in remote.files && remote.files[staged].File?
    requires backup !in remote.files && staged != target && staged != backup && target != backup
    modifies remote
    ensures old(remote.history) <= remote.history && |remote.history| > |old(remote.history)|
    ensures AlwaysWhole(remote.history, |old(remote.history)|, target, backup, At(old(remote.files), target),
                        old(remote.files)[staged].content)
    ensures Ended(end, old(remote.files), remote.files, staged, target, backup, old(remote.files)[staged].content,
                  if existingMode.Some? then existingMode else old(remote.files)[staged].mode)
    ensures end.Stranded? <==> Strands(At(old(remote.files), target), existingMode, existed, f)
    ensures end.Unnoticed? <==> Unnotices(At(old(remote.files), target), existingMode, existed, f)
    ensures end.Committed? <==> Commits(At(old(remote.files), target), existingMode, existed, f)
    ensures !end.Late? && At(remote.files, staged) != Some(Dir)
  {
    if existingMode.Some? {
      var chmodError := remote.Chmod(staged, existingMode.value, f.chmod);
      if chmodError.Some? {
        return Untouched(chmodError.value);
      }
    }
    var posixError := remote.Rename(staged, target, true, f.posixRename);
    if posixError.None? {
      return Committed;
    }
    if !IsHandled(posixError.value) {
      return Untouched(posixError.value);
    }
    var renameError := remote.Rename(staged, target, false, f.rename);
    if renameError.None? {
      return Committed;
    }
    if !IsHandled(renameError.value) || !existed {
      return Untouched(renameError.value);
    }
    if f.lstat.Some? || target !in remote.files {
      return Untouched(if f.lstat.Some? && f.lstat.value != OsError(true) then f.lstat.value else renameError.value);
    }
    var node := remote.files[target];
    if node.Dir? || (node.File? && node.mode.None?) {
      return Untouched(posixError.value);
    }
    end := ReplaceWithBackup(remote, staged, target, backup, f);
  }

  // --------------------------------------------------------- the whole upload

  datatype Target = Found(path: Path, mode: Option<nat>, existed: bool) | IsDirectory | Unresolved(fault: Fault)

  /** The attributes at `path` decide: absent, a directory, or something to replace. */
  function Classify(files: map<Path, Node>, path: Path, fault: Option<Fault>): Target {
    if fault == Some(OsError(true)) || (fault.None? && path !in files) then Found(path, None, false)
    else if fault.Some? then Unresolved(fault.value)
    else
      match files[path]
      case Dir => IsDirectory
      case File(_, mode) => Found(path, mode, true)
      case Link(_) => Found(path, None, true)
  }

  /** _resolve_remote_upload_target: a final symbolic link is followed to the path that the
      server's normalize answers. */
  function ResolveTarget(files: map<Path, Node>, path: Path, realPath: Path, lstat: Option<Fault>,
                         normalize: Option<Fault>, stat: Option<Fault>): Target {
    if lstat.None? && path in files && files[path].Link? then
      if normalize.Some? then Unresolved(normalize.value) else Classify(files, realPath, stat)
    else Classify(files, path, lstat)
  }

  /** What the resolution comes to, case by case: of a path that is no link its own node
      decides, of a link the node at the path it leads to; what is not there is created,
      a directory is refused, and an error that does not say "not there" is passed on. */
  lemma ResolvesRightly(files: map<Path, Node>, path: Path, realPath: Path, lstat: Option<Fault>,
                        normalize: Option<Fault>, stat: Option<Fault>)
    ensures var t := ResolveTarget(files, path, realPath, lstat, normalize, stat);
            var link := lstat.None? && path in files && files[path].Link?;
            && (lstat == Some(OsError(true)) || (lstat.None? && path !in files) ==> t == Found(path, None, false))
            && (lstat.Some? && lstat != Some(OsError(true)) ==> t == Unresolved(lstat.value))
            && (lstat.None? && path in files && files[path].File? ==> t == Found(path, files[path].mode, true))
            && (lstat.None? && path in files && files[path].Dir? ==> t == IsDirectory)
            && (link && normalize.Some? ==> t == Unresolved(normalize.value))
            && (link && normalize.None? && (stat == Some(OsError(true)) || (stat.None? && realPath !in files)) ==>
                  t == Found(realPath, None, false))
            && (link && normalize.None? && stat.Some? && stat != Some(OsError(true)) ==> t == Unresolved(stat.value))
            && (link && normalize.None? && stat.None? && realPath in files && files[realPath].File? ==>
                  t == Found(realPath, files[realPath].mode, true))
            && (link && normalize.None? && stat.None? && realPath in files && files[realPath].Dir? ==> t == IsDirectory)
  {
  }

  /** What may fail around the commit: `rmdir` once it has succeeded, `removeStaged` and
      `removeDir` in the clean-up after an error. `written` is how much of the file a failed
      transfer leaves behind, if anything; `mode` is the mode the server gives a new file. */
  datatype UploadFaults = UploadFaults(
    lstat: Option<Fault>,
    normalize: Option<Fault>,
    stat: Option<Fault>,
    mkdir: Option<Fault>,
    put: Option<Fault>,
    written: Option<nat>,
    mode: Option<nat>,
    commit: CommitFaults,
    rmdir: Option<Fault>,
    removeStaged: Option<Fault>,
    removeDir: Option<Fault>)

  /** `raised` is the error that comes out: that of `end`, or the interrupt of its clean-up. */
  datatype Upload =
    | NoLocalFile
    | Rejected(why: Target)
    | Uploaded(target: Path)
    | Failed(target: Path, end: End, raised: Fault)

  function Take(s: string, n: nat): string {
    if n < |s| then s[..n] else s
  }

  function StagedIn(dir: Path): Path {
    dir + "/upload"
  }

  lemma StagedUnder(dir: Path)
    ensures Under(StagedIn(dir), dir) && StagedIn(dir) != dir
  {
    assert StagedIn(dir)[..|dir|] == dir;
  }

  /** The staging directory and the backup carry a fresh uuid: nothing has their names or
      lies inside the directory. */
  ghost predicate FreshNames(files: map<Path, Node>, target: Path, dir: Path, backup: Path) {
    && dir !in files && EmptyDir(files, dir) && backup !in files
    && target != dir && !Under(target, dir) && target != backup && backup != dir && !Under(backup, dir)
  }

  /** Only the staged file can lie in the staging directory. */
  ghost predicate OnlyStaged(files: map<Path, Node>, dir: Path) {
    && (forall path :: path in files && Under(path, dir) ==> path == StagedIn(dir))
    && (dir in files ==> files[dir].Dir?) && At(files, StagedIn(dir)) != Some(Dir)
  }

  lemma KeepsStaging(was: map<Path, Node>, now: map<Path, Node>, dir: Path, target: Path, backup: Path)
    requires OnlyStaged(was, dir) && OnlyTouches(was, now, StagedIn(dir), target, backup)
    requires target != dir && !Under(target, dir) && backup != dir && !Under(backup, dir)
    requires At(now, StagedIn(dir)) != Some(Dir)
    ensures OnlyStaged(now, dir) && At(now, dir) == At(was, dir)
  {
    StagedUnder(dir);
    assert At(now, dir) == At(was, dir);
    forall path | path in now && Under(path, dir) ensures path == StagedIn(dir) {
      assert path != StagedIn(dir) ==> At(now, path) == At(was, path);
    }
  }

  /** mkdir and put: the staged file is complete, or there is an error. */
  method Stage(remote: Remote, content: string, dir: Path, f: UploadFaults) returns (error: Option<Fault>)
    requires dir !in remote.files && EmptyDir(remote.files, dir)
    modifies remote
    ensures old(remote.history) <= remote.history && |remote.history| > |old(remote.history)|
    ensures forall path :: path != dir && path != StagedIn(dir) ==> At(remote.files, path) == At(old(remote.files), path)
    ensures forall i, path :: |old(remote.history)| <= i < |remote.history| && path != dir && path != StagedIn(dir) ==>
              At(remote.history[i], path) == At(old(remote.files), path)
    ensures error.None? <==> f.mkdir.None? && f.put.None?
    ensures error.None? ==> At(remote.files, StagedIn(dir)) == Some(File(content, f.mode))
    ensures f.mkdir.None? ==> At(remote.files, dir) == Some(Dir)
    ensures f.mkdir.Some? ==> dir !in remote.files
    ensures OnlyStaged(remote.files, dir)
  {
    var staged := StagedIn(dir);
    StagedUnder(dir);
    if f.mkdir.Some? {
      remote.Become(remote.files);
      return f.mkdir;
    }
    remote.Become(remote.files[dir := Dir]);
    if f.put.Some? {
      if f.written.Some? {
        remote.Become(remote.files[staged := File(Take(content, f.written.value), f.mode)]);
      }
      return f.put;
    }
    remote.Become(remote.files[staged := File(content, f.mode)]);
    error := None;
  }

  /** The clean-up after an error; its own errors are suppressed, but an interrupt ends it. */
  method Discard(remote: Remote, dir: Path, f: UploadFaults) returns (interrupted: bool)
    requires OnlyStaged(remote.files, dir)
    modifies remote
    ensures old(remote.history) <= remote.history
    ensures forall path :: path != dir && path != StagedIn(dir) ==> At(remote.files, path) == At(old(remote.files), path)
    ensures forall i, path :: |old(remote.history)| <= i < |remote.history| && path != dir && path != StagedIn(dir) ==>
              At(remote.history[i], path) == At(old(remote.files), path)
    ensures interrupted <==> f.removeStaged == Some(Interrupted) || f.removeDir == Some(Interrupted)
    ensures StagedIn(dir) in remote.files <==> StagedIn(dir) in old(remote.files) && f.removeStaged.Some?
    ensures dir in remote.files <==>
              dir in old(remote.files) &&
              (f.removeStaged == Some(Interrupted) || f.removeDir.Some? || StagedIn(dir) in remote.files)
  {
    StagedUnder(dir);
    var error := remote.Remove(StagedIn(dir), f.removeStaged);
    if error == Some(Interrupted) {
      return true;
    }
    error := remote.RemoveDir(dir, f.removeDir);
    interrupted := error == Some(Interrupted);
  }

  /** What an upload promises about its target, its backup and everything else. */
  ghost predicate UploadEnded(end: End, was: map<Path, Node>, now: map<Path, Node>, dir: Path,
                              target: Path, backup: Path, content: string, mode: Option<nat>)
  {
    && (forall path :: path != dir && path != StagedIn(dir) && path != target && path != backup ==>
          At(now, path) == At(was, path))
    && match end
       case Untouched(_) => At(now, target) == At(was, target)
       case Stranded(_) => At(now, target) == None && At(now, backup) == At(was, target) != None
       case Unnoticed(_) => At(now, target) == Some(File(content, mode)) && At(now, backup) == At(was, target) != None
       case _ => At(now, target) == Some(File(content, mode))
  }

  /** Whether the whole file gets to the staging area. */
  predicate Stages(f: UploadFaults) {
    f.mkdir.None? && f.put.None?
  }

  /** Whether the new file is put in place and nothing is left to report. */
  predicate InPlace(node: Option<Node>, t: Target, f: UploadFaults)
    requires t.Found?
  {
    Stages(f) && Commits(node, t.mode, t.existed, f.commit)
  }

  /** The steps of an upload whose target has been resolved, up to its clean-up. */
  method PutInPlace(remote: Remote, content: string, t: Target, dir: Path, backup: Path, f: UploadFaults)
      returns (end: End)
    requires t.Found? && FreshNames(remote.files, t.path, dir, backup)
    modifies remote
    ensures old(remote.history) <= remote.history
    ensures AlwaysWhole(remote.history, |old(remote.history)|, t.path, backup, At(old(remote.files), t.path), content)
    ensures UploadEnded(end, old(remote.files), remote.files, dir, t.path, backup, content,
                        if t.mode.Some? then t.mode else f.mode)
    ensures var node := At(old(remote.files), t.path);
            && (end.Committed? <==> InPlace(node, t, f) && f.rmdir != Some(Interrupted))
            && (end.Late? <==> InPlace(node, t, f) && f.rmdir == Some(Interrupted))
            && (end.Stranded? <==> Stages(f) && Strands(node, t.mode, t.existed, f.commit))
            && (end.Unnoticed? <==> Stages(f) && Unnotices(node, t.mode, t.existed, f.commit))
    ensures OnlyStaged(remote.files, dir) && (f.mkdir.None? && !end.Committed? ==> At(remote.files, dir) == Some(Dir))
    ensures end.Committed? ==> StagedIn(dir) !in remote.files && (dir in remote.files <==> f.rmdir.Some?)
  {
    StagedUnder(dir);
    var error := Stage(remote, content, dir, f);
    if error.Some? {
      return Untouched(error.value);
    }
    assert At(remote.files, StagedIn(dir)).Some? && At(remote.files, backup) == None;
    ghost var staged := remote.files;
    end := CommitUpload(remote, StagedIn(dir), t.path, t.mode, t.existed, backup, f.commit);
    KeepsStaging(staged, remote.files, dir, t.path, backup);
    if end.Committed? {
      var rmdirError := remote.RemoveDir(dir, f.rmdir);
      if rmdirError == Some(Interrupted) {
        end := Late(Interrupted);
      }
    }
  }

  /** What is left in the staging area after an upload that raises. */
  ghost predicate StagingLeft(files: map<Path, Node>, dir: Path, end: End, f: UploadFaults)
    requires !end.Committed?
  {
    if end.fault.Timeout? then f.mkdir.None? ==> At(files, dir) == Some(Dir)
    else f.removeStaged.None? && f.removeDir.None? ==> StagedIn(dir) !in files && dir !in files
  }

  /** upload_file. The target never holds a partial file; success means that it holds the
      new file; an error means that what was there is still there, but for three cases,
      which are told apart exactly by what fails and what was at the target. */
  method UploadFile(remote: Remote, local: Option<string>, path: Path, realPath: Path, dir: Path, backup: Path,
                    f: UploadFaults) returns (r: Upload)
    requires var t := ResolveTarget(remote.files, path, realPath, f.lstat, f.normalize, f.stat);
             t.Found? ==> FreshNames(remote.files, t.path, dir, backup)
    modifies remote
    ensures old(remote.history) <= remote.history
    ensures r.NoLocalFile? <==> local.None?
    ensures r.NoLocalFile? || r.Rejected? ==> remote.files == old(remote.files) && remote.history == old(remote.history)
    // a link is followed, once, to the path the server names
    ensures r.Uploaded? || r.Failed? ==>
              r.target == if f.lstat.None? && path in old(remote.files) && old(remote.files)[path].Link? then realPath else path
    ensures r.Rejected? ==> !r.why.Found?
    ensures r.Rejected? && r.why.IsDirectory? ==>
              At(old(remote.files), path) == Some(Dir) || At(old(remote.files), realPath) == Some(Dir)
    ensures var t := ResolveTarget(old(remote.files), path, realPath, f.lstat, f.normalize, f.stat);
            r.Uploaded? || r.Failed? ==>
              && local.Some? && t.Found? && r.target == t.path
              && AlwaysWhole(remote.history, |old(remote.history)|, t.path, backup, At(old(remote.files), t.path),
                             local.value)
              && UploadEnded(if r.Uploaded? then Committed else r.end, old(remote.files), remote.files, dir,
                             t.path, backup, local.value, if t.mode.Some? then t.mode else f.mode)
    ensures var t := ResolveTarget(old(remote.files), path, realPath, f.lstat, f.normalize, f.stat);
            local.Some? && t.Found? ==>
              var node := At(old(remote.files), t.path);
              && (r.Uploaded? <==> InPlace(node, t, f) && f.rmdir != Some(Interrupted))
              && (r.Failed? && r.end.Late? <==> InPlace(node, t, f) && f.rmdir == Some(Interrupted))
              && (r.Failed? && r.end.Stranded? <==> Stages(f) && Strands(node, t.mode, t.existed, f.commit))
              && (r.Failed? && r.end.Unnoticed? <==> Stages(f) && Unnotices(node, t.mode, t.existed, f.commit))
    ensures r.Failed? ==> !r.end.Committed?
    ensures r.Failed? ==> r.raised == r.end.fault || (r.raised == Interrupted && !r.end.fault.Timeout?)
    // nothing is left of the staging directory unless cleaning up failed; a timeout leaves it behind
    ensures r.Uploaded? ==> StagedIn(dir) !in remote.files && (dir in remote.files <==> f.rmdir.Some?)
    ensures r.Failed? ==> StagingLeft(remote.files, dir, r.end, f)
  {
    if local.None? {
      return NoLocalFile;
    }
    var t := ResolveTarget(remote.files, path, realPath, f.lstat, f.normalize, f.stat);
    if !t.Found? {
      return Rejected(t);
    }
    var end := PutInPlace(remote, local.value, t, dir, backup, f);
    if end.Committed? {
      return Uploaded(t.path);
    }
    StagedUnder(dir);
    var raised := end.fault;
    if !end.fault.Timeout? {
      var interrupted := Discard(remote, dir, f);
      if interrupted { raised := Interrupted; }
    }
    r := Failed(t.path, end, raised);
  }

  const QUIET := CommitFaults(None, None, None, None, None, None, None, None)

  /** The three cases do happen, to every regular file whose mode is known: on a server
      without posix_rename the old file can end up in the backup only, and an error can be
      reported although the new file is in place, before and after its commit is over. */
  lemma FailuresHappen(files: map<Path, Node>, path: Path, realPath: Path)
      returns (stranded: UploadFaults, unnoticed: UploadFaults, late: UploadFaults)
    requires path in files && files[path].File? && files[path].mode.Some?
    ensures ResolveTarget(files, path, realPath, None, None, None) == Found(path, files[path].mode, true)
    ensures forall f :: f in [stranded, unnoticed, late] ==> f.lstat.None? && f.normalize.None? && f.stat.None?
    ensures Stages(stranded) && Strands(At(files, path), files[path].mode, true, stranded.commit)
    ensures Stages(unnoticed) && Unnotices(At(files, path), files[path].mode, true, unnoticed.commit)
    ensures InPlace(At(files, path), Found(path, files[path].mode, true), late) && late.rmdir == Some(Interrupted)
  {
    var noPosix := QUIET.(posixRename := Some(OsError(false)));
    var calm := UploadFaults(None, None, None, None, None, None, None, QUIET, None, None, None);
    stranded := calm.(commit := noPosix.(replace := Some(Eof), restore := Some(Eof)));
    unnoticed := calm.(commit := noPosix.(removeBackup := Some(Eof)));
    late := calm.(rmdir := Some(Interrupted));
  }
}
